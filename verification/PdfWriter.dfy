/**
 The PDF report writer: lines cut and escaped into page streams, objects numbered,
 byte offsets counted by hand. Bytes are characters below 256.
 */
module PdfWriter {
  import opened Decimals
  import opened PdfText
  import opened Texts

  const LINES_PER_PAGE := 48
  const LINE_WIDTH := 160

  function Cut(line: string): string {
    if |line| > LINE_WIDTH then line[..LINE_WIDTH] else line
  }

  function RowLines(rows: seq<seq<string>>): (ls: seq<string>)
    ensures |ls| == |rows|
  {
    if rows == [] then [] else RowLines(rows[..|rows| - 1]) + [Join(" | ", rows[|rows| - 1])]
  }

  /** The header line and one line a row. */
  function ReportLines(columns: seq<string>, rows: seq<seq<string>>): seq<string> {
    [Join(" | ", columns)] + RowLines(rows)
  }

  /** Pages of 48 lines, the last one possibly shorter; at least one page. */
  function Pages(lines: seq<string>): (ps: seq<seq<string>>)
    ensures ps != []
  {
    if |lines| <= LINES_PER_PAGE then [lines] else [lines[..LINES_PER_PAGE]] + Pages(lines[LINES_PER_PAGE..])
  }

  // ------------------------------------------------------------- streams

  function Shows(lines: seq<string>): seq<string> {
    if lines == [] then []
    else Shows(lines[..|lines| - 1]) + ["(" + Escape(Cut(lines[|lines| - 1])) + ") Tj", "T*"]
  }

  function Stream(lines: seq<string>): string {
    Join("\n", ["BT", "/F1 8 Tf", "36 806 Td", "10 TL"] + Shows(lines) + ["ET"])
  }

  method StreamOf(lines: seq<string>) returns (stream: string)
    ensures stream == Stream(lines)
  {
    var commands := ["BT", "/F1 8 Tf", "36 806 Td", "10 TL"];
    for i := 0 to |lines|
      invariant commands == ["BT", "/F1 8 Tf", "36 806 Td", "10 TL"] + Shows(lines[..i])
    {
      assert lines[..i + 1][..i] == lines[..i];
      commands := commands + ["(" + Escape(Cut(lines[i])) + ") Tj", "T*"];
    }
    assert lines[..|lines|] == lines;
    stream := Join("\n", commands + ["ET"]);
  }

  // ------------------------------------------------------------- objects

  function Ref(id: nat): string {
    Digits(id) + " 0 R"
  }

  function CatalogHead(): string { "<< /Type /Catalog /Pages " }
  function CloseDict(): string { " >>" }
  function PagesHead(): string { "<< /Type /Pages /Kids [" }
  function CountHead(): string { "] /Count " }
  function PageHead(): string { "<< /Type /Page /Parent " }
  function MediaBox(): string { " /MediaBox [0 0 595 842] /Resources << /Font << /F1 " }
  function ContentsHead(): string { " >> >> /Contents " }
  function LengthHead(): string { "<< /Length " }
  function StreamHead(): string { " >>\nstream\n" }
  function StreamEnd(): string { "\nendstream" }
  function FontObject(): string { "<< /Type /Font /Subtype /Type1 /BaseFont /Helvetica >>" }

  function Catalog(): string {
    CatalogHead() + Ref(2) + CloseDict()
  }

  function PageIds(n: nat): seq<nat> {
    seq(n, i => 3 + 2 * i)
  }

  function Refs(ids: seq<nat>): seq<string> {
    if ids == [] then [] else [Ref(ids[0])] + Refs(ids[1..])
  }

  function PagesObject(ids: seq<nat>): string {
    PagesHead() + Join(" ", Refs(ids)) + CountHead() + Digits(|ids|) + CloseDict()
  }

  function PageObject(font: nat, content: nat): string {
    PageHead() + Ref(2) + MediaBox() + Ref(font) + ContentsHead() + Ref(content) + CloseDict()
  }

  function ContentObject(stream: string): string {
    LengthHead() + Digits(|stream|) + StreamHead() + stream + StreamEnd()
  }

  function FontId(pages: nat): nat {
    3 + 2 * pages
  }

  /** A page object and a content object for each page, in page order. */
  function PageObjects(pages: seq<seq<string>>, font: nat): (os: seq<string>)
    ensures |os| == 2 * |pages|
  {
    if pages == [] then []
    else
      var n := |pages| - 1;
      PageObjects(pages[..n], font) + [PageObject(font, 4 + 2 * n), ContentObject(Stream(pages[n]))]
  }

  function Objects(pages: seq<seq<string>>): (os: seq<string>)
    ensures |os| == 2 * |pages| + 3
  {
    [Catalog(), PagesObject(PageIds(|pages|))] + PageObjects(pages, FontId(|pages|)) + [FontObject()]
  }

  // ---------------------------------------------------------------- file

  function Header(): string { "%PDF-1.4\n%\U{E2}\U{E3}\U{CF}\U{D3}\n" }
  function ObjectHead(): string { " 0 obj\n" }
  function ObjectEnd(): string { "\nendobj\n" }

  function ObjectText(id: nat, body: string): string {
    Digits(id) + ObjectHead() + body + ObjectEnd()
  }

  /** The file up to and including these objects, numbered from one. */
  function Bodies(objects: seq<string>): string {
    if objects == [] then Header()
    else Bodies(objects[..|objects| - 1]) + ObjectText(|objects|, objects[|objects| - 1])
  }

  /** Where object `id` starts. */
  function Offset(objects: seq<string>, id: nat): nat
    requires 1 <= id <= |objects|
  {
    |Bodies(objects[..id - 1])|
  }

  function EntryEnd(): string { " 00000 n \n" }
  function FreeEntry(): string { "0000000000 65535 f \n" }

  function Entries(objects: seq<string>, n: nat): string
    requires n <= |objects|
  {
    if n == 0 then "" else Entries(objects, n - 1) + (Padded(Offset(objects, n)) + EntryEnd())
  }

  function XrefHead(): string { "xref\n0 " }
  function TrailerHead(): string { "trailer\n<< /Size " }
  function RootHead(): string { " /Root " }
  function StartXref(): string { " >>\nstartxref\n" }
  function EndOfFile(): string { "\n%%EOF\n" }

  function Trailer(size: nat, xref: nat): string {
    TrailerHead() + Digits(size) + RootHead() + Ref(1) + StartXref() + Digits(xref) + EndOfFile()
  }

  function File(objects: seq<string>): string {
    Bodies(objects) + XrefHead() + Digits(|objects| + 1) + "\n" + FreeEntry() + Entries(objects, |objects|)
    + Trailer(|objects| + 1, |Bodies(objects)|)
  }

  function Document(lines: seq<string>): string {
    File(Objects(Pages(lines)))
  }

  method ObjectsOf(pages: seq<seq<string>>) returns (objects: seq<string>)
    ensures objects == Objects(pages)
  {
    hide Catalog, PagesObject, PageObject, ContentObject, FontObject, Stream;
    var font := 3 + 2 * |pages|;
    var ids: seq<nat> := [];
    objects := ["", ""];
    for i := 0 to |pages|
      invariant ids == PageIds(i)
      invariant objects == ["", ""] + PageObjects(pages[..i], font)
    {
      assert pages[..i + 1][..i] == pages[..i];
      var pageId := 3 + i * 2;
      ids := ids + [pageId];
      var stream := StreamOf(pages[i]);
      objects := objects + [PageObject(font, pageId + 1)];
      objects := objects + [ContentObject(stream)];
    }
    assert pages[..|pages|] == pages;
    objects := objects[0 := Catalog()];
    objects := objects[1 := PagesObject(ids)];
    objects := objects + [FontObject()];
  }

  lemma NoBodies()
    ensures Bodies([]) == Header()
  {
  }

  lemma BodiesNext(objects: seq<string>, i: nat)
    requires i < |objects|
    ensures Bodies(objects[..i + 1]) == Bodies(objects[..i]) + ObjectText(i + 1, objects[i])
    ensures Offset(objects, i + 1) == |Bodies(objects[..i])|
  {
    hide ObjectText, Header;
    assert objects[..i + 1][..i] == objects[..i];
  }

  lemma NoEntries(objects: seq<string>)
    ensures Entries(objects, 0) == ""
  {
  }

  lemma EntriesNext(objects: seq<string>, i: nat)
    requires 1 <= i <= |objects|
    ensures Entries(objects, i) == Entries(objects, i - 1) + (Padded(Offset(objects, i)) + EntryEnd())
  {
    hide Padded, EntryEnd, Offset;
  }

  method PdfBytes(columns: seq<string>, rows: seq<seq<string>>) returns (data: string)
    ensures data == Document(ReportLines(columns, rows))
  {
    hide ObjectText, Header, XrefHead, FreeEntry, EntryEnd, Padded, Digits, Trailer, Pages, Objects, ReportLines, Bodies, Entries, Offset;
    var lines := ReportLines(columns, rows);
    var objects := ObjectsOf(Pages(lines));
    var output := Header();
    var offsets: seq<nat> := [0];
    NoBodies();
    for i := 0 to |objects|
      invariant output == Bodies(objects[..i])
      invariant |offsets| == i + 1
      invariant forall k | 1 <= k <= i :: offsets[k] == Offset(objects, k)
    {
      BodiesNext(objects, i);
      offsets := offsets + [|output|];
      output := output + ObjectText(i + 1, objects[i]);
    }
    assert objects[..|objects|] == objects;
    var xref := |output|;
    output := output + XrefHead() + Digits(|objects| + 1) + "\n";
    output := output + FreeEntry();
    ghost var start := output;
    NoEntries(objects);
    for i := 1 to |offsets|
      invariant output == start + Entries(objects, i - 1)
    {
      EntriesNext(objects, i);
      output := output + (Padded(offsets[i]) + EntryEnd());
    }
    data := output + Trailer(|objects| + 1, xref);
    assert data == File(objects);
  }
}
