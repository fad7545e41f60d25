/**
 A reader for such files that trusts nothing but the bytes: it starts from the end of
 the file, follows `startxref` to the cross-reference table, the table to the
 objects, the catalog to the pages in `/Kids` order, and each page to its stream.
 Sections 7.5.4, 7.5.5 and 7.3.4.2 of ISO 32000-1.
 */
module PdfReader {
  import opened Wrappers
  import opened Decimals
  import opened PdfText

  function Expect(s: string, literal: string): (r: Option<string>)
    ensures r.Some? ==> |r.value| == |s| - |literal|
  {
    if literal <= s then Some(s[|literal|..]) else None
  }

  function ReadRef(s: string): (r: Option<(nat, string)>)
    ensures r.Some? ==> |r.value.1| < |s|
  {
    var (n, s) :- ReadNat(s);
    var s :- Expect(s, " 0 R");
    Some((n, s))
  }

  function ReadRefs(s: string): Option<(seq<nat>, string)>
    decreases |s|
  {
    var (id, rest) :- ReadRef(s);
    if rest != "" && rest[0] == ' ' then
      var (ids, end) :- ReadRefs(rest[1..]);
      Some(([id] + ids, end))
    else Some(([id], rest))
  }

  // --------------------------------------------- the end of the file

  function TrailingDigits(s: string): (n: nat)
    ensures n <= |s| && AllDigits(s[|s| - n..])
  {
    if s != "" && IsDigit(s[|s| - 1]) then
      var n := TrailingDigits(s[..|s| - 1]);
      assert s[|s| - 1 - n..] == s[..|s| - 1][|s| - 1 - n..] + [s[|s| - 1]];
      1 + n
    else 0
  }

  function StripEnd(s: string, literal: string): Option<string> {
    if |literal| <= |s| && s[|s| - |literal|..] == literal then Some(s[..|s| - |literal|]) else None
  }

  function ReadStartXref(data: string): Option<nat> {
    var s :- StripEnd(data, "\n%%EOF\n");
    var n := TrailingDigits(s);
    var _ :- StripEnd(s[..|s| - n], "startxref\n");
    if n == 0 then None else Some(ValueOf(s[|s| - n..]))
  }

  // ------------------------------------------------ cross-reference table

  datatype Table = Table(base: nat, size: nat)

  /** The size and the root a trailer states. */
  function ReadTrailer(s: string): Option<(nat, nat)> {
    var s :- Expect(s, "trailer\n<< /Size ");
    var (size, s) :- ReadNat(s);
    var s :- Expect(s, " /Root ");
    var (root, s) :- ReadRef(s);
    var _ :- Expect(s, " >>\nstartxref\n");
    Some((size, root))
  }

  /** The table that `s`, the end of the file from `startxref` on, begins with. */
  function ReadXref(length: nat, s: string): Option<(Table, nat)>
    requires |s| <= length
  {
    var s :- Expect(s, "xref\n0 ");
    var (size, s) :- ReadNat(s);
    var s :- Expect(s, "\n");
    if size == 0 || 20 * size > |s| || s[..20] != "0000000000 65535 f \n" then None
    else
      var (size', root) :- ReadTrailer(s[20 * size..]);
      if size' != size then None else Some((Table(length - |s|, size), root))
  }

  function ReadTable(data: string): Option<(Table, nat)> {
    var at :- ReadStartXref(data);
    if at > |data| then None else ReadXref(|data|, data[at..])
  }

  /** Entries are exactly twenty bytes long: ten digits of offset and a fixed end. */
  function EntryOffset(data: string, table: Table, id: nat): Option<nat> {
    var at := table.base + 20 * id;
    if id == 0 || id >= table.size || at + 20 > |data| then None
    else if AllDigits(data[at..at + 10]) && data[at + 10..at + 20] == " 00000 n \n" then Some(ValueOf(data[at..at + 10]))
    else None
  }

  /** The text after `id 0 obj` at the place the table gives. */
  function ReadObject(data: string, table: Table, id: nat): Option<string> {
    var at :- EntryOffset(data, table, id);
    if at > |data| then None
    else
      var (n, s) :- ReadNat(data[at..]);
      if n != id then None else Expect(s, " 0 obj\n")
  }

  // --------------------------------------------------------------- pages

  function ReadShows(s: string): Option<seq<string>>
    decreases |s|
  {
    if s == "ET" then Some([])
    else
      var rest :- Expect(s, "(");
      var (line, rest) :- ReadLiteral(rest, 0);
      var rest :- Expect(rest, " Tj\nT*\n");
      var lines :- ReadShows(rest);
      Some([line] + lines)
  }

  function ReadContent(stream: string): Option<seq<string>> {
    var s :- Expect(stream, "BT\n/F1 8 Tf\n36 806 Td\n10 TL\n");
    ReadShows(s)
  }

  /** A stream is exactly as long as its `/Length` says. */
  function ReadStream(s: string): Option<string> {
    var s :- Expect(s, "<< /Length ");
    var (n, s) :- ReadNat(s);
    var s :- Expect(s, " >>\nstream\n");
    if n > |s| then None
    else
      var rest :- Expect(s[n..], "\nendstream");
      var _ :- Expect(rest, "\nendobj\n");
      Some(s[..n])
  }

  /** The parent, the font and the contents a page refers to. */
  function ReadPageDict(s: string): Option<(nat, nat, nat)> {
    var s :- Expect(s, "<< /Type /Page /Parent ");
    var (parent, s) :- ReadRef(s);
    var s :- Expect(s, " /MediaBox [0 0 595 842] /Resources << /Font << /F1 ");
    var (font, s) :- ReadRef(s);
    var s :- Expect(s, " >> >> /Contents ");
    var (content, s) :- ReadRef(s);
    var s :- Expect(s, " >>");
    var _ :- Expect(s, "\nendobj\n");
    Some((parent, font, content))
  }

  function ReadFont(s: string): Option<()> {
    var s :- Expect(s, "<< /Type /Font /Subtype /Type1 /BaseFont /Helvetica >>");
    var _ :- Expect(s, "\nendobj\n");
    Some(())
  }

  function ReadPage(data: string, table: Table, parent: nat, id: nat): Option<seq<string>> {
    var s :- ReadObject(data, table, id);
    var (up, font, content) :- ReadPageDict(s);
    var f :- ReadObject(data, table, font);
    var _ :- ReadFont(f);
    var c :- ReadObject(data, table, content);
    var stream :- ReadStream(c);
    if up != parent then None else ReadContent(stream)
  }

  function ReadPages(data: string, table: Table, parent: nat, ids: seq<nat>): Option<seq<seq<string>>> {
    if ids == [] then Some([])
    else
      var page :- ReadPage(data, table, parent, ids[0]);
      var pages :- ReadPages(data, table, parent, ids[1..]);
      Some([page] + pages)
  }

  function ReadCatalog(s: string): Option<nat> {
    var s :- Expect(s, "<< /Type /Catalog /Pages ");
    var (pages, s) :- ReadRef(s);
    var s :- Expect(s, " >>");
    var _ :- Expect(s, "\nendobj\n");
    Some(pages)
  }

  function ReadKids(s: string): Option<seq<nat>> {
    var s :- Expect(s, "<< /Type /Pages /Kids [");
    var (ids, s) :- ReadRefs(s);
    var s :- Expect(s, "] /Count ");
    var (count, s) :- ReadNat(s);
    var s :- Expect(s, " >>");
    var _ :- Expect(s, "\nendobj\n");
    if count != |ids| then None else Some(ids)
  }

  /** The lines of each page, in `/Kids` order. */
  function ReadDocument(data: string): Option<seq<seq<string>>> {
    var (table, root) :- ReadTable(data);
    var catalog :- ReadObject(data, table, root);
    var parent :- ReadCatalog(catalog);
    var tree :- ReadObject(data, table, parent);
    var ids :- ReadKids(tree);
    ReadPages(data, table, parent, ids)
  }
}
