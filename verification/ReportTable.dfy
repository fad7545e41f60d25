/**
 Which text of the table stands where in a rendered report: the file is read back to lines, and each line is
 compared with the fields of its row by position.
 */
module ReportTable {
  import opened Wrappers
  import opened Decimals
  import opened PdfText
  import opened Texts
  import opened PdfWriter
  import opened PdfReader
  import opened PdfRoundTrip

  // ------------------------------------------------------ fields of a line

  /** Where field `k` begins: after all earlier ones and three characters for each. */
  function FieldStart(fields: seq<string>, k: nat): nat
    requires k <= |fields|
  {
    if k == 0 then 0 else FieldStart(fields, k - 1) + |fields[k - 1]| + 3
  }

  /** The fields stand in the line in their order, a bar between two spaces before each but the first, and nothing else. */
  ghost predicate LaidOut(fields: seq<string>, line: string) {
    && |line| == (if fields == [] then 0 else FieldStart(fields, |fields|) - 3)
    && (forall k | 0 <= k < |fields| :: FieldAt(fields, line, k))
    && (forall k | 0 < k < |fields| :: BarBefore(fields, line, k))
  }

  predicate FieldAt(fields: seq<string>, line: string, k: nat)
    requires k < |fields|
  {
    var at := FieldStart(fields, k);
    at + |fields[k]| <= |line| && line[at..at + |fields[k]|] == fields[k]
  }

  predicate BarBefore(fields: seq<string>, line: string, k: nat)
    requires 0 < k < |fields|
  {
    var at := FieldStart(fields, k);
    3 <= at <= |line| && line[at - 3..at] == " | "
  }

  lemma {:induction false} StartsOfPrefix(fields: seq<string>, n: nat, k: nat)
    requires k <= n <= |fields|
    ensures FieldStart(fields[..n], k) == FieldStart(fields, k)
  {
    if k > 0 {
      StartsOfPrefix(fields, n, k - 1);
    }
  }

  lemma {:induction false} StartsGrow(fields: seq<string>, i: nat, k: nat)
    requires i < k <= |fields|
    ensures FieldStart(fields, i) + |fields[i]| + 3 <= FieldStart(fields, k)
  {
    if i < k - 1 {
      StartsGrow(fields, i, k - 1);
    }
  }

  /** Joined with the bar, fields are laid out so. */
  lemma {:induction false} JoinedIsLaidOut(fields: seq<string>)
    ensures LaidOut(fields, Join(" | ", fields))
  {
    hide Join, FieldAt, BarBefore;
    if |fields| <= 1 {
      FewJoined(fields);
    } else {
      var n := |fields| - 1;
      var front := fields[..n];
      JoinedIsLaidOut(front);
      assert fields == front + [fields[n]];
      JoinConcat(" | ", front, [fields[n]]);
      FewJoined([fields[n]]);
      OneMoreField(fields, Join(" | ", front));
    }
  }

  lemma FewJoined(fields: seq<string>)
    requires |fields| <= 1
    ensures LaidOut(fields, Join(" | ", fields)) && Join(" | ", fields) == if fields == [] then "" else fields[0]
  {
  }

  lemma OneMoreField(fields: seq<string>, line: string)
    requires |fields| >= 2 && LaidOut(fields[..|fields| - 1], line)
    ensures LaidOut(fields, line + " | " + fields[|fields| - 1])
  {
    hide FieldAt, BarBefore;
    var n := |fields| - 1;
    var front, all := fields[..n], line + " | " + fields[n];
    StartsOfPrefix(fields, n, n);
    forall k | 0 <= k < |fields|
      ensures FieldAt(fields, all, k)
    {
      if k < n {
        FieldStays(fields, line, k);
      } else {
        LastField(fields, line);
      }
    }
    forall k | 0 < k < |fields|
      ensures BarBefore(fields, all, k)
    {
      if k < n {
        BarStays(fields, line, k);
      } else {
        LastField(fields, line);
      }
    }
  }

  lemma LastField(fields: seq<string>, line: string)
    requires |fields| >= 2 && |line| + 3 == FieldStart(fields, |fields| - 1)
    ensures var all := line + " | " + fields[|fields| - 1]; FieldAt(fields, all, |fields| - 1) && BarBefore(fields, all, |fields| - 1)
  {
    var n := |fields| - 1;
    var all := line + " | " + fields[n];
    assert all[|line|..|line| + 3] == " | " && all[|line| + 3..] == fields[n];
  }

  lemma FieldStays(fields: seq<string>, line: string, k: nat)
    requires k < |fields| - 1 && FieldAt(fields[..|fields| - 1], line, k)
    ensures FieldAt(fields, line + " | " + fields[|fields| - 1], k)
  {
    var n := |fields| - 1;
    StartsOfPrefix(fields, n, k);
    var at, all := FieldStart(fields, k), line + " | " + fields[n];
    assert all[at..at + |fields[k]|] == line[at..at + |fields[k]|];
  }

  lemma BarStays(fields: seq<string>, line: string, k: nat)
    requires 0 < k < |fields| - 1 && BarBefore(fields[..|fields| - 1], line, k)
    ensures BarBefore(fields, line + " | " + fields[|fields| - 1], k)
  {
    var n := |fields| - 1;
    StartsOfPrefix(fields, n, k);
    var at, all := FieldStart(fields, k), line + " | " + fields[n];
    assert all[at - 3..at] == line[at - 3..at];
  }

  /** There is only one such line. */
  lemma {:induction false} LaidOutOnce(fields: seq<string>, line: string, other: string)
    requires LaidOut(fields, line) && LaidOut(fields, other)
    ensures line == other
  {
    hide FieldAt, BarBefore;
    forall i | 0 <= i < |line|
      ensures line[i] == other[i]
    {
      SamePlace(fields, line, other, i, |fields|);
    }
  }

  lemma {:induction false} SamePlace(fields: seq<string>, line: string, other: string, i: nat, n: nat)
    requires LaidOut(fields, line) && LaidOut(fields, other) && i < |line| && n <= |fields| && i < FieldStart(fields, n)
    ensures line[i] == other[i]
  {
    if n > 0 {
      var k := n - 1;
      var at := FieldStart(fields, k);
      assert FieldAt(fields, line, k) && FieldAt(fields, other, k);
      if i < at {
        SamePlace(fields, line, other, i, k);
      } else if i < at + |fields[k]| {
        assert line[at..at + |fields[k]|][i - at] == other[at..at + |fields[k]|][i - at];
      } else {
        assert n < |fields|;
        assert BarBefore(fields, line, n) && BarBefore(fields, other, n);
        var bar := FieldStart(fields, n) - 3;
        assert line[bar..bar + 3][i - bar] == other[bar..bar + 3][i - bar];
      }
    }
  }

  // ---------------------------------------------------------- what is shown

  /** The first 160 characters, those outside Latin-1 as question marks, and every kind of line end as a line feed. */
  ghost predicate ShownFor(line: string, shown: string) {
    exists kept: string ::
      && |kept| == (if |line| < 160 then |line| else 160)
      && (forall i | 0 <= i < |kept| :: kept[i] == if line[i] as int < 256 then line[i] else '?')
      && shown == LineFeeds(kept)
      && ('\r' !in kept ==> shown == kept)
  }

  lemma ShownIs(line: string)
    ensures ShownFor(line, Shown(line))
  {
    LineFeedsUnchanged(Latin1(Cut(line)));
  }

  /** A row of the table as one line read from the file. */
  ghost predicate ShowsRow(fields: seq<string>, shown: string) {
    exists line: string :: LaidOut(fields, line) && ShownFor(line, shown)
  }

  lemma RowShown(fields: seq<string>)
    ensures ShowsRow(fields, Shown(Join(" | ", fields)))
  {
    hide LaidOut, ShownFor, Join, Shown;
    JoinedIsLaidOut(fields);
    ShownIs(Join(" | ", fields));
  }

  lemma {:induction false} RowLineAt(rows: seq<seq<string>>, i: nat)
    requires i < |rows|
    ensures RowLines(rows)[i] == Join(" | ", rows[i])
  {
    hide Join;
    if i < |rows| - 1 {
      RowLineAt(rows[..|rows| - 1], i);
    }
  }

  /** Full pages of 48 lines, and one that holds the rest. */
  lemma {:induction false} PageSizes(lines: seq<string>)
    ensures var pages := ShownPages(Pages(lines));
            && pages != [] && (forall i | 0 <= i < |pages| - 1 :: |pages[i]| == 48) && |pages[|pages| - 1]| <= 48
    decreases |lines|
  {
    hide ShownAll;
    if |lines| <= LINES_PER_PAGE {
      assert [lines][1..] == [];
      assert ShownPages(Pages(lines)) == [ShownAll(lines)];
      ShownCount(lines);
    } else {
      var page, rest := lines[..LINES_PER_PAGE], lines[LINES_PER_PAGE..];
      PageSizes(rest);
      assert Pages(lines)[1..] == Pages(rest);
      ShownCount(page);
    }
  }

  lemma ShownCount(lines: seq<string>)
    ensures |ShownAll(lines)| == |lines|
  {
  }

  lemma TenDigits()
    ensures Power10(10) == 10_000_000_000
  {
    assert Power10(5) == 100_000;
    assert Power10(10) == 100_000 * Power10(5);
  }

  lemma {:induction false} BodiesStart(objects: seq<string>)
    ensures Header() <= Bodies(objects)
  {
    hide ObjectText, Header;
    if objects != [] {
      BodiesStart(objects[..|objects| - 1]);
    }
  }

  /** Version and binary marker first, the end marker last. */
  lemma FileEnds(objects: seq<string>)
    ensures var file := File(objects);
            && |file| >= 21 && file[..15] == "%PDF-1.4\n%\U{E2}\U{E3}\U{CF}\U{D3}\n" && file[|file| - 6..] == "%%EOF\n"
  {
    hide Bodies, Entries, Digits, XrefHead, FreeEntry, TrailerHead, RootHead, StartXref, Ref;
    BodiesStart(objects);
    var start: string := Header();
    assert |start| == 15 && Bodies(objects)[..15] == start;
    var before := Bodies(objects) + XrefHead() + Digits(|objects| + 1) + "\n" + FreeEntry() + Entries(objects, |objects|);
    var trailer := Trailer(|objects| + 1, |Bodies(objects)|);
    assert |EndOfFile()| == 7 && trailer[|trailer| - 7..] == EndOfFile();
    assert File(objects) == before + trailer;
    assert (before + trailer)[|before + trailer| - 7..] == EndOfFile();
    assert EndOfFile()[1..] == "%%EOF\n";
  }

  lemma DocumentIs(lines: seq<string>)
    ensures Document(lines) == File(Objects(Pages(lines)))
  {
    hide File, Objects, Pages;
  }

  /**
   The report of a table, read back from its file: pages of 48 lines, the first line showing the columns and line
   1 + i showing the fields of row i, in their order.
   */
  lemma ReportShowsTable(columns: seq<string>, rows: seq<seq<string>>, data: string)
    requires data == Document(ReportLines(columns, rows)) && |data| < 10_000_000_000
    ensures |data| >= 21 && data[..15] == "%PDF-1.4\n%\U{E2}\U{E3}\U{CF}\U{D3}\n" && data[|data| - 6..] == "%%EOF\n"
    ensures var pages := ReadDocument(data);
            && pages.Some? && pages.value != []
            && (forall i | 0 <= i < |pages.value| - 1 :: |pages.value[i]| == 48) && |pages.value[|pages.value| - 1]| <= 48
            && var shown := Flatten(pages.value);
            && |shown| == 1 + |rows|
            && ShowsRow(columns, shown[0])
            && forall i | 0 <= i < |rows| :: ShowsRow(rows[i], shown[1 + i])
  {
    hide ReadDocument, Document, File, Objects, Power10, Pages, ShownPages, Flatten, ShowsRow, Join, Shown, RowLines;
    var lines := ReportLines(columns, rows);
    FileEnds(Objects(Pages(lines)));
    DocumentIs(lines);
    TenDigits();
    ReportReadBack(columns, rows);
    PageSizes(lines);
    RowShown(columns);
    forall i | 0 <= i < |rows|
      ensures ShowsRow(rows[i], Shown(lines[1 + i]))
    {
      RowLineAt(rows, i);
      RowShown(rows[i]);
    }
  }
}
