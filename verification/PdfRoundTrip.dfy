/**
 Every number the writer computes by hand is the one a reader needs: reading the file
 gives back every page, line by line.
 */
module PdfRoundTrip {
  import opened Wrappers
  import opened Decimals
  import opened PdfText
  import opened Texts
  import opened PdfWriter
  import opened PdfReader

  lemma ExpectHit(literal: string, r: string)
    ensures Expect(literal + r, literal) == Some(r)
  {
  }

  lemma RefRead(n: nat, r: string)
    ensures ReadRef(Ref(n) + r) == Some((n, r))
  {
    hide Digits;
    assert Ref(n) + r == Digits(n) + (" 0 R" + r);
    NumeralRead(n, " 0 R" + r);
    ExpectHit(" 0 R", r);
  }

  lemma {:induction false} RefsRead(ids: seq<nat>, r: string)
    requires ids != [] && (r == "" || r[0] != ' ')
    ensures ReadRefs(Join(" ", Refs(ids)) + r) == Some((ids, r))
  {
    hide ReadRef, ReadRefs, Ref;
    if |ids| == 1 {
      RefRead(ids[0], r);
      LastRef(Ref(ids[0]) + r, ids[0], r);
      assert Refs(ids) == [Ref(ids[0])] && ids == [ids[0]];
    } else {
      RefsRead(ids[1..], r);
      RefsLength(ids[1..]);
      var rest := Join(" ", Refs(ids[1..])) + r;
      assert Join(" ", Refs(ids)) == Ref(ids[0]) + " " + Join(" ", Refs(ids[1..]));
      assert Join(" ", Refs(ids)) + r == Ref(ids[0]) + (" " + rest);
      RefRead(ids[0], " " + rest);
      MoreRefs(Ref(ids[0]) + (" " + rest), ids[0], rest, ids[1..], r);
      assert [ids[0]] + ids[1..] == ids;
    }
  }

  lemma LastRef(s: string, id: nat, r: string)
    requires ReadRef(s) == Some((id, r)) && (r == "" || r[0] != ' ')
    ensures ReadRefs(s) == Some(([id], r))
  {
    hide ReadRef;
  }

  lemma MoreRefs(s: string, id: nat, rest: string, ids: seq<nat>, r: string)
    requires ReadRef(s) == Some((id, " " + rest)) && ReadRefs(rest) == Some((ids, r))
    ensures ReadRefs(s) == Some(([id] + ids, r))
  {
  }

  lemma {:induction false} RefsLength(ids: seq<nat>)
    ensures |Refs(ids)| == |ids|
  {
    if ids != [] {
      RefsLength(ids[1..]);
    }
  }

  // -------------------------------------------------------- object bodies

  /** `s` followed by what ends an object, and by anything else. */
  function Ended(s: string, r: string): string {
    s + (ObjectEnd() + r)
  }

  lemma CatalogRead(r: string)
    ensures ReadCatalog(Ended(Catalog(), r)) == Some(2)
  {
    hide Expect, ReadRef, Ref;
    var s2 := CloseDict() + (ObjectEnd() + r);
    assert Ended(Catalog(), r) == CatalogHead() + (Ref(2) + s2);
    ExpectHit(CatalogHead(), Ref(2) + s2);
    RefRead(2, s2);
    ExpectHit(CloseDict(), ObjectEnd() + r);
    ExpectHit(ObjectEnd(), r);
  }

  lemma KidsRead(ids: seq<nat>, r: string)
    requires ids != []
    ensures ReadKids(Ended(PagesObject(ids), r)) == Some(ids)
  {
    hide Expect, ReadRefs, ReadNat, Digits, Join, Refs;
    var s2 := CloseDict() + (ObjectEnd() + r);
    var s3 := CountHead() + (Digits(|ids|) + s2);
    assert Ended(PagesObject(ids), r) == PagesHead() + (Join(" ", Refs(ids)) + s3);
    ExpectHit(PagesHead(), Join(" ", Refs(ids)) + s3);
    RefsRead(ids, s3);
    ExpectHit(CountHead(), Digits(|ids|) + s2);
    NumeralRead(|ids|, s2);
    ExpectHit(CloseDict(), ObjectEnd() + r);
    ExpectHit(ObjectEnd(), r);
  }

  lemma PageShape(font: nat, content: nat, r: string)
    ensures Ended(PageObject(font, content), r)
         == PageHead() + (Ref(2) + (MediaBox() + (Ref(font) + (ContentsHead() + (Ref(content) + (CloseDict() + (ObjectEnd() + r)))))))
  {
    hide Ref, PageHead, MediaBox, ContentsHead, CloseDict, ObjectEnd;
  }

  lemma PageDictRead(font: nat, content: nat, r: string)
    ensures ReadPageDict(Ended(PageObject(font, content), r)) == Some((2, font, content))
  {
    hide Expect, ReadRef, Ref, Ended, PageObject;
    var s2 := CloseDict() + (ObjectEnd() + r);
    var s3 := ContentsHead() + (Ref(content) + s2);
    var s4 := MediaBox() + (Ref(font) + s3);
    PageShape(font, content, r);
    ExpectHit(PageHead(), Ref(2) + s4);
    RefRead(2, s4);
    ExpectHit(MediaBox(), Ref(font) + s3);
    RefRead(font, s3);
    ExpectHit(ContentsHead(), Ref(content) + s2);
    RefRead(content, s2);
    ExpectHit(CloseDict(), ObjectEnd() + r);
    ExpectHit(ObjectEnd(), r);
  }

  lemma FontRead(r: string)
    ensures ReadFont(Ended(FontObject(), r)) == Some(())
  {
  }

  lemma StreamRead(stream: string, r: string)
    ensures ReadStream(Ended(ContentObject(stream), r)) == Some(stream)
  {
    hide Expect, ReadNat, Digits;
    var s2 := StreamEnd() + (ObjectEnd() + r);
    var s3 := StreamHead() + (stream + s2);
    assert Ended(ContentObject(stream), r) == LengthHead() + (Digits(|stream|) + s3);
    ExpectHit(LengthHead(), Digits(|stream|) + s3);
    NumeralRead(|stream|, s3);
    ExpectHit(StreamHead(), stream + s2);
    assert (stream + s2)[..|stream|] == stream && (stream + s2)[|stream|..] == s2;
    ExpectHit(StreamEnd(), ObjectEnd() + r);
    ExpectHit(ObjectEnd(), r);
  }

  // ------------------------------------------------------ content streams

  /** What a reader sees of a line: cut, in Latin-1, line ends as line feeds. */
  function Shown(line: string): string {
    LineFeeds(Latin1(Cut(line)))
  }

  function ShownAll(lines: seq<string>): seq<string> {
    seq(|lines|, i requires 0 <= i < |lines| => Shown(lines[i]))
  }

  /** The show commands of a page as one text. */
  function ShowText(lines: seq<string>): string {
    if lines == [] then "ET"
    else "(" + (Escape(Cut(lines[0])) + (")" + (" Tj\nT*\n" + ShowText(lines[1..]))))
  }

  lemma NoShows()
    ensures Shows([]) == []
  {
  }

  lemma ShowsNext(lines: seq<string>)
    requires lines != []
    ensures Shows(lines) == Shows(lines[..|lines| - 1]) + ["(" + Escape(Cut(lines[|lines| - 1])) + ") Tj", "T*"]
  {
    hide Escape, Cut;
  }

  lemma {:induction false} ShowsConcat(lines: seq<string>)
    requires lines != []
    ensures Shows(lines) == ["(" + Escape(Cut(lines[0])) + ") Tj", "T*"] + Shows(lines[1..])
  {
    hide Escape, Cut, Shows;
    var before, rest := lines[..|lines| - 1], lines[1..];
    ShowsNext(lines);
    if |lines| == 1 {
      NoShows();
      assert before == [] && rest == [];
    } else {
      ShowsConcat(before);
      ShowsNext(rest);
      assert before[1..] == rest[..|rest| - 1];
    }
  }

  lemma {:induction false} ShowsText(lines: seq<string>)
    ensures Join("\n", Shows(lines) + ["ET"]) == ShowText(lines)
  {
    hide Escape, Cut;
    if lines == [] {
      assert Shows(lines) + ["ET"] == ["ET"];
    } else {
      var tail := Shows(lines[1..]) + ["ET"];
      ShowsConcat(lines);
      ShowsText(lines[1..]);
      ShowJoined(Escape(Cut(lines[0])), tail);
      assert Shows(lines) + ["ET"] == ["(" + Escape(Cut(lines[0])) + ") Tj", "T*"] + tail;
    }
  }

  lemma ShowJoined(text: string, tail: seq<string>)
    requires tail != []
    ensures Join("\n", ["(" + text + ") Tj", "T*"] + tail) == "(" + (text + (")" + (" Tj\nT*\n" + Join("\n", tail))))
  {
  }

  lemma StreamText(lines: seq<string>)
    ensures Stream(lines) == "BT\n/F1 8 Tf\n36 806 Td\n10 TL\n" + ShowText(lines)
  {
    hide Shows, ShowText;
    var head := ["BT", "/F1 8 Tf", "36 806 Td", "10 TL"];
    var tail := Shows(lines) + ["ET"];
    assert head + Shows(lines) + ["ET"] == head + tail;
    JoinConcat("\n", head, tail);
    ShowsText(lines);
    HeadText();
  }

  lemma HeadText()
    ensures Join("\n", ["BT", "/F1 8 Tf", "36 806 Td", "10 TL"]) + "\n" == "BT\n/F1 8 Tf\n36 806 Td\n10 TL\n"
  {
    FourJoined("BT", "/F1 8 Tf", "36 806 Td", "10 TL");
  }

  lemma FourJoined(a: string, b: string, c: string, d: string)
    ensures Join("\n", [a, b, c, d]) == a + "\n" + (b + "\n" + (c + "\n" + d))
  {
    var all := [a, b, c, d];
    assert all[1..] == [b, c, d] && all[1..][1..] == [c, d] && [c, d][1..] == [d];
    assert Join("\n", [c, d]) == c + "\n" + d;
    assert Join("\n", [b, c, d]) == b + "\n" + Join("\n", [c, d]);
  }

  lemma {:induction false} ShowsRead(lines: seq<string>)
    ensures ReadShows(ShowText(lines)) == Some(ShownAll(lines))
  {
    if lines != [] {
      hide Expect, ReadLiteral, Escape, Cut, Latin1, LineFeeds;
      var more := " Tj\nT*\n" + ShowText(lines[1..]);
      var literal := Escape(Cut(lines[0])) + (")" + more);
      assert ShowText(lines) == "(" + literal;
      assert ("(" + literal)[0] != "ET"[0];
      ExpectHit("(", literal);
      EscapedLineRead(Cut(lines[0]), more);
      ExpectHit(" Tj\nT*\n", ShowText(lines[1..]));
      ShowsRead(lines[1..]);
      assert [Shown(lines[0])] + ShownAll(lines[1..]) == ShownAll(lines);
    } else {
      assert ShownAll(lines) == [];
    }
  }

  /** A page stream reads back as the page's lines. */
  lemma ContentRead(lines: seq<string>)
    ensures ReadContent(Stream(lines)) == Some(ShownAll(lines))
  {
    hide Expect, ReadShows, Stream, ShowText;
    StreamText(lines);
    ExpectHit("BT\n/F1 8 Tf\n36 806 Td\n10 TL\n", ShowText(lines));
    ShowsRead(lines);
  }

  // -------------------------------------------------------- whole files

  lemma {:induction false} BodiesPrefix(objects: seq<string>, k: nat)
    requires k <= |objects|
    ensures Bodies(objects[..k]) <= Bodies(objects)
  {
    if k < |objects| {
      var before := objects[..|objects| - 1];
      BodiesPrefix(before, k);
      assert before[..k] == objects[..k];
    } else {
      assert objects[..k] == objects;
    }
  }

  function TrailerText(objects: seq<string>): string {
    TrailerHead() + (Digits(|objects| + 1) + (RootHead() + (Ref(1) + (StartXref() + (Digits(|Bodies(objects)|) + EndOfFile())))))
  }

  function TableText(objects: seq<string>): string {
    FreeEntry() + (Entries(objects, |objects|) + TrailerText(objects))
  }

  function TableOf(objects: seq<string>): Table {
    Table(|Bodies(objects) + (XrefHead() + (Digits(|objects| + 1) + "\n"))|, |objects| + 1)
  }

  lemma FileShape(objects: seq<string>)
    ensures File(objects) == Bodies(objects) + (XrefHead() + (Digits(|objects| + 1) + ("\n" + TableText(objects))))
    ensures TableOf(objects).base + |TableText(objects)| == |File(objects)|
    ensures File(objects)[TableOf(objects).base..] == TableText(objects)
    ensures Bodies(objects) <= File(objects) && File(objects)[|Bodies(objects)|..] == XrefHead() + (Digits(|objects| + 1) + ("\n" + TableText(objects)))
  {
    hide Bodies, Digits, Ref, Entries, XrefHead, TrailerHead, RootHead, StartXref, EndOfFile, FreeEntry;
  }

  lemma SliceAfter(file: string, before: string, text: string)
    requires before + text <= file
    ensures file[|before|..] == text + file[|before + text|..]
  {
  }

  /** The table locates object `id` where the writer put it. */
  lemma ObjectAt(objects: seq<string>, id: nat)
    requires 1 <= id <= |objects|
    ensures Offset(objects, id) <= |Bodies(objects)| <= |File(objects)|
    ensures File(objects)[Offset(objects, id)..] == Digits(id) + (ObjectHead() + Ended(objects[id - 1], After(objects, id)))
  {
    hide Bodies, File, ObjectText, Digits, ObjectHead, ObjectEnd;
    var upTo, before := objects[..id], objects[..id - 1];
    var text := ObjectText(id, objects[id - 1]);
    BodiesPrefix(objects, id);
    BodiesPrefix(objects, id - 1);
    FileShape(objects);
    OneMoreBody(objects, id);
    SliceAfter(File(objects), Bodies(before), text);
    ObjectShape(id, objects[id - 1], After(objects, id));
  }

  lemma OneMoreBody(objects: seq<string>, id: nat)
    requires 1 <= id <= |objects|
    ensures Bodies(objects[..id]) == Bodies(objects[..id - 1]) + ObjectText(id, objects[id - 1])
  {
    assert objects[..id][..id - 1] == objects[..id - 1];
  }

  lemma ObjectShape(id: nat, body: string, r: string)
    ensures ObjectText(id, body) + r == Digits(id) + (ObjectHead() + Ended(body, r))
  {
    hide Digits, ObjectHead, ObjectEnd;
  }

  function After(objects: seq<string>, id: nat): string
    requires id <= |objects|
  {
    if |Bodies(objects[..id])| <= |File(objects)| then File(objects)[|Bodies(objects[..id])|..] else ""
  }

  lemma OffsetWidth(objects: seq<string>, id: nat)
    requires 1 <= id <= |objects| && |Bodies(objects)| < Power10(10)
    ensures |Padded(Offset(objects, id)) + EntryEnd()| == 20 && |Padded(Offset(objects, id))| == 10
  {
    hide Power10;
    BodiesPrefix(objects, id - 1);
    PaddedNumeral(Offset(objects, id));
    assert |EntryEnd()| == 10;
  }

  /** Every entry is twenty bytes when every offset has at most ten digits. */
  lemma {:induction false} EntriesAt(objects: seq<string>, n: nat, i: nat)
    requires n <= |objects| && |Bodies(objects)| < Power10(10)
    ensures |Entries(objects, n)| == 20 * n
    ensures 1 <= i <= n ==> Entries(objects, n)[20 * i - 20..20 * i] == Padded(Offset(objects, i)) + EntryEnd()
  {
    hide Bodies, Padded, EntryEnd, Power10, Offset;
    if n > 0 {
      EntriesAt(objects, n - 1, i);
      OffsetWidth(objects, n);
    }
  }

  lemma {:induction false} TrailingDigitsStop(before: string, ds: string)
    requires AllDigits(ds) && before != "" && !IsDigit(before[|before| - 1])
    ensures TrailingDigits(before + ds) == |ds|
  {
    if ds == "" {
      assert before + ds == before;
    } else {
      assert (before + ds)[..|before + ds| - 1] == before + ds[..|ds| - 1];
      TrailingDigitsStop(before, ds[..|ds| - 1]);
    }
  }

  lemma StripEndHit(s: string, literal: string)
    ensures StripEnd(s + literal, literal) == Some(s)
  {
  }

  lemma StartXrefRead(before: string, x: nat)
    ensures ReadStartXref(before + "startxref\n" + Digits(x) + "\n%%EOF\n") == Some(x)
  {
    var s := before + "startxref\n";
    StripEndHit(s + Digits(x), "\n%%EOF\n");
    assert s[|s| - 1] == '\n';
    TrailingDigitsStop(s, Digits(x));
    var all := s + Digits(x);
    assert all[..|all| - |Digits(x)|] == s && all[|all| - |Digits(x)|..] == Digits(x);
    StripEndHit(before, "startxref\n");
    hide StripEnd, TrailingDigits, Digits;
  }

  lemma FileEnd(objects: seq<string>)
    ensures exists before: string :: File(objects) == before + "startxref\n" + Digits(|Bodies(objects)|) + "\n%%EOF\n"
  {
    hide Bodies, Digits, Ref, Entries, XrefHead, TrailerHead, RootHead, FreeEntry;
    var x := Digits(|Bodies(objects)|);
    var start := Bodies(objects) + XrefHead() + Digits(|objects| + 1) + "\n" + FreeEntry() + Entries(objects, |objects|)
               + (TrailerHead() + Digits(|objects| + 1) + RootHead() + Ref(1));
    assert StartXref() == " >>\n" + "startxref\n";
    var before := start + " >>\n";
    assert Trailer(|objects| + 1, |Bodies(objects)|)
        == (TrailerHead() + Digits(|objects| + 1) + RootHead() + Ref(1)) + (" >>\n" + "startxref\n") + x + EndOfFile();
    assert File(objects) == before + "startxref\n" + x + "\n%%EOF\n";
  }

  lemma TrailerRead(objects: seq<string>)
    ensures ReadTrailer(TrailerText(objects)) == Some((|objects| + 1, 1))
  {
    hide Bodies, Expect, ReadNat, ReadRef, Digits, Ref;
    var size, s2 := |objects| + 1, StartXref() + (Digits(|Bodies(objects)|) + EndOfFile());
    ExpectHit(TrailerHead(), Digits(size) + (RootHead() + (Ref(1) + s2)));
    NumeralRead(size, RootHead() + (Ref(1) + s2));
    ExpectHit(RootHead(), Ref(1) + s2);
    RefRead(1, s2);
    ExpectHit(StartXref(), Digits(|Bodies(objects)|) + EndOfFile());
  }

  /** `startxref` points at `xref`, and the table and the trailer agree. */
  lemma TableRead(objects: seq<string>)
    requires |Bodies(objects)| < Power10(10)
    ensures ReadTable(File(objects)) == Some((TableOf(objects), 1))
  {
    hide Bodies, File, ReadStartXref, Power10, TableText, TableOf, ReadXref, Digits;
    var file := File(objects);
    FileEnd(objects);
    var before :| file == before + "startxref\n" + Digits(|Bodies(objects)|) + "\n%%EOF\n";
    StartXrefRead(before, |Bodies(objects)|);
    FileShape(objects);
    XrefRead(objects, |file|);
    TableBase(objects);
  }

  lemma TableSlices(objects: seq<string>)
    requires |Bodies(objects)| < Power10(10)
    ensures |TableText(objects)| >= 20 * (|objects| + 1)
    ensures TableText(objects)[..20] == FreeEntry()
    ensures TableText(objects)[20 * (|objects| + 1)..] == TrailerText(objects)
  {
    hide Bodies, Entries, Power10, TrailerText;
    EntriesAt(objects, |objects|, 0);
  }

  lemma XrefRead(objects: seq<string>, length: nat)
    requires |Bodies(objects)| < Power10(10)
    requires |XrefHead() + (Digits(|objects| + 1) + ("\n" + TableText(objects)))| <= length
    ensures ReadXref(length, XrefHead() + (Digits(|objects| + 1) + ("\n" + TableText(objects))))
         == Some((Table(length - |TableText(objects)|, |objects| + 1), 1))
  {
    var size, table := |objects| + 1, TableText(objects);
    hide Bodies, Expect, ReadNat, ReadTrailer, Digits, TableText, Power10, TrailerText;
    TableSlices(objects);
    TrailerRead(objects);
    ExpectHit(XrefHead(), Digits(size) + ("\n" + table));
    NumeralRead(size, "\n" + table);
    ExpectHit("\n", table);
  }

  lemma TableBase(objects: seq<string>)
    ensures TableOf(objects) == Table(|File(objects)| - |TableText(objects)|, |objects| + 1)
  {
  }

  lemma EntryRead(objects: seq<string>, id: nat)
    requires 1 <= id <= |objects| && |Bodies(objects)| < Power10(10)
    ensures EntryOffset(File(objects), TableOf(objects), id) == Some(Offset(objects, id))
  {
    hide Bodies, File, Entries, Power10, Padded, Offset, TrailerText, TableOf, FreeEntry, EntryEnd, EntryOffset;
    var entry := Padded(Offset(objects, id)) + EntryEnd();
    FileShape(objects);
    EntriesAt(objects, |objects|, id);
    OffsetWidth(objects, id);
    PaddedNumeral(Offset(objects, id));
    assert TableOf(objects).size == |objects| + 1 by { TableBase(objects); }
    FreeEntryWidth();
    EntrySlice(FreeEntry(), Entries(objects, |objects|), TrailerText(objects), entry, id);
    EntryParsed(File(objects), TableOf(objects), id, Padded(Offset(objects, id)), TableText(objects));
  }

  lemma FreeEntryWidth()
    ensures |FreeEntry()| == 20
  {
  }

  /** An entry of the table, as it stands in the text from the table on. */
  lemma EntryParsed(file: string, table: Table, id: nat, padded: string, text: string)
    requires table.base <= |file| && file[table.base..] == text && 1 <= id < table.size
    requires |padded| == 10 && AllDigits(padded) && 20 * id + 20 <= |text| && text[20 * id..20 * id + 20] == padded + EntryEnd()
    ensures EntryOffset(file, table, id) == Some(ValueOf(padded))
  {
    hide AllDigits, ValueOf;
    var entry := padded + EntryEnd();
    DoubleSlice(file, table.base, 20 * id);
    assert entry[..10] == padded && entry[10..] == EntryEnd();
  }

  lemma EntrySlice(free: string, entries: string, trailer: string, entry: string, id: nat)
    requires |free| == 20 && 1 <= id && 20 * id <= |entries| && entries[20 * id - 20..20 * id] == entry
    ensures 20 * id + 20 <= |free + (entries + trailer)|
    ensures (free + (entries + trailer))[20 * id..20 * id + 20] == entry
  {
  }

  lemma DoubleSlice(file: string, base: nat, at: nat)
    requires base + at + 20 <= |file|
    ensures file[base + at..base + at + 20] == file[base..][at..at + 20]
    ensures file[base + at..base + at + 10] == file[base..][at..at + 20][..10]
    ensures file[base + at + 10..base + at + 20] == file[base..][at..at + 20][10..]
  {
  }

  /** Entry `id` leads to `id 0 obj` and the body the writer gave that object. */
  lemma ObjectRead(objects: seq<string>, id: nat)
    requires 1 <= id <= |objects| && |Bodies(objects)| < Power10(10)
    ensures ReadObject(File(objects), TableOf(objects), id) == Some(Ended(objects[id - 1], After(objects, id)))
  {
    hide Bodies, File, Power10, Offset, TableOf, EntryOffset, ReadNat, Digits, Expect, Ended, After;
    var s := ObjectHead() + Ended(objects[id - 1], After(objects, id));
    EntryRead(objects, id);
    ObjectAt(objects, id);
    NumeralRead(id, s);
    ExpectHit(ObjectHead(), Ended(objects[id - 1], After(objects, id)));
  }

  lemma {:induction false} PageObjectAt(pages: seq<seq<string>>, font: nat, i: nat)
    requires i < |pages|
    ensures PageObjects(pages, font)[2 * i] == PageObject(font, 4 + 2 * i)
    ensures PageObjects(pages, font)[2 * i + 1] == ContentObject(Stream(pages[i]))
  {
    hide PageObject, ContentObject, Stream;
    if i < |pages| - 1 {
      PageObjectAt(pages[..|pages| - 1], font, i);
    }
  }

  /** Page `i` is read through its object, its font and its stream. */
  lemma PageRead(pages: seq<seq<string>>, i: nat)
    requires i < |pages| && |Bodies(Objects(pages))| < Power10(10)
    ensures var objects := Objects(pages);
            ReadPage(File(objects), TableOf(objects), 2, 3 + 2 * i) == Some(ShownAll(pages[i]))
  {
    hide Bodies, File, Power10, TableOf, ReadObject, ReadPageDict, ReadFont, ReadStream, ReadContent;
    hide PageObject, ContentObject, FontObject, Stream, Ended, After, Catalog, PagesObject;
    var objects := Objects(pages);
    PageObjectAt(pages, FontId(|pages|), i);
    ObjectRead(objects, 3 + 2 * i);
    ObjectRead(objects, 4 + 2 * i);
    ObjectRead(objects, FontId(|pages|));
    PageDictRead(FontId(|pages|), 4 + 2 * i, After(objects, 3 + 2 * i));
    FontRead(After(objects, FontId(|pages|)));
    StreamRead(Stream(pages[i]), After(objects, 4 + 2 * i));
    ContentRead(pages[i]);
  }

  function ShownPages(pages: seq<seq<string>>): seq<seq<string>> {
    if pages == [] then [] else [ShownAll(pages[0])] + ShownPages(pages[1..])
  }

  lemma {:induction false} PagesRead(pages: seq<seq<string>>, i: nat)
    requires i <= |pages| && |Bodies(Objects(pages))| < Power10(10)
    ensures var objects := Objects(pages);
            ReadPages(File(objects), TableOf(objects), 2, PageIds(|pages|)[i..]) == Some(ShownPages(pages[i..]))
    decreases |pages| - i
  {
    hide Bodies, File, Power10, TableOf, ReadPage, Objects, ShownAll;
    if i < |pages| {
      PageRead(pages, i);
      PagesRead(pages, i + 1);
      assert PageIds(|pages|)[i..][1..] == PageIds(|pages|)[i + 1..] && pages[i..][1..] == pages[i + 1..];
      assert PageIds(|pages|)[i..][0] == 3 + 2 * i;
    }
  }

  /** Reading any file below 10^10 bytes gives back the pages it was made from. */
  lemma FileRead(pages: seq<seq<string>>)
    requires pages != [] && |File(Objects(pages))| < Power10(10)
    ensures ReadDocument(File(Objects(pages))) == Some(ShownPages(pages))
  {
    hide Bodies, File, Power10, TableOf, ReadTable, ReadObject, ReadCatalog, ReadKids, ReadPages;
    hide PageObjects, FontObject, Catalog, PagesObject, Ended, After;
    var objects := Objects(pages);
    FileShape(objects);
    TableRead(objects);
    ObjectRead(objects, 1);
    ObjectRead(objects, 2);
    CatalogRead(After(objects, 1));
    KidsRead(PageIds(|pages|), After(objects, 2));
    PagesRead(pages, 0);
    assert PageIds(|pages|)[0..] == PageIds(|pages|) && pages[0..] == pages;
  }

  function Flatten(pages: seq<seq<string>>): seq<string> {
    if pages == [] then [] else pages[0] + Flatten(pages[1..])
  }

  lemma {:induction false} PagesHoldLines(lines: seq<string>)
    ensures Flatten(ShownPages(Pages(lines))) == ShownAll(lines)
    ensures forall i | 0 <= i < |Pages(lines)| :: |Pages(lines)[i]| <= LINES_PER_PAGE
    decreases |lines|
  {
    hide ShownAll, ShownPages, Flatten;
    if |lines| <= LINES_PER_PAGE {
      assert Pages(lines) == [lines] + [];
      PageFirst(lines, []);
    } else {
      var page, rest := lines[..LINES_PER_PAGE], lines[LINES_PER_PAGE..];
      PagesHoldLines(rest);
      assert Pages(lines) == [page] + Pages(rest);
      PageFirst(page, Pages(rest));
      ShownTogether(page, rest);
      assert page + rest == lines;
    }
  }

  lemma PageFirst(page: seq<string>, pages: seq<seq<string>>)
    ensures Flatten(ShownPages([page] + pages)) == ShownAll(page) + Flatten(ShownPages(pages))
    ensures pages == [] ==> Flatten(ShownPages([page] + pages)) == ShownAll(page)
  {
    hide ShownAll;
    var all := [page] + pages;
    assert all[0] == page && all[1..] == pages;
    var shown := ShownPages(all);
    assert shown[0] == ShownAll(page) && shown[1..] == ShownPages(pages);
    if pages == [] {
      assert ShownAll(page) + [] == ShownAll(page);
    }
  }

  lemma ShownTogether(lines: seq<string>, more: seq<string>)
    ensures ShownAll(lines + more) == ShownAll(lines) + ShownAll(more)
  {
    hide Shown;
  }

  /** The report reads back page by page, and its pages hold exactly the header and
      row lines, each cut to 160 characters and shown in Latin-1. */
  lemma ReportReadBack(columns: seq<string>, rows: seq<seq<string>>)
    requires |Document(ReportLines(columns, rows))| < Power10(10)
    ensures var lines := ReportLines(columns, rows);
            && ReadDocument(Document(lines)) == Some(ShownPages(Pages(lines)))
            && Flatten(ShownPages(Pages(lines))) == ShownAll(lines)
            && |ShownAll(lines)| == 1 + |rows|
  {
    hide File, Objects, Power10, ReadDocument, ShownPages, Pages, Flatten;
    var lines := ReportLines(columns, rows);
    FileRead(Pages(lines));
    PagesHoldLines(lines);
  }

  /** A line is shown as it was cut exactly when the part kept has no carriage return. */
  lemma ShownExactly(line: string)
    ensures Shown(line) == Latin1(Cut(line)) <==> '\r' !in Cut(line)
  {
    EscapedLineRead(Cut(line), "");
  }
}
