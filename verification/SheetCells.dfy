/**
 Spreadsheet cell references: columns are numbered in letters without a zero, and
 every cell of a rendered sheet carries its own reference.
 */
module SheetCells {
  import opened Wrappers
  import opened Decimals

  predicate IsLetter(c: char) {
    'A' <= c <= 'Z'
  }

  predicate AllLetters(s: string) {
    forall i | 0 <= i < |s| :: IsLetter(s[i])
  }

  function Letter(d: nat): (c: char)
    requires d < 26
    ensures IsLetter(c) && LetterValue(c) == d
  {
    ('A' as int + d) as char
  }

  function LetterValue(c: char): nat
    requires IsLetter(c)
  {
    c as int - 'A' as int
  }

  /** The name of a column; column zero has none. */
  function Name(index: nat): (s: string)
    ensures AllLetters(s)
  {
    if index == 0 then "" else Name((index - 1) / 26) + [Letter((index - 1) % 26)]
  }

  method ColumnName(index: nat) returns (name: string)
    ensures name == Name(index)
  {
    var rest := index;
    name := "";
    while rest != 0
      invariant Name(rest) + name == Name(index)
    {
      ghost var before := name;
      var remainder := (rest - 1) % 26;
      name := [Letter(remainder)] + name;
      assert Name((rest - 1) / 26) + [Letter(remainder)] + before == Name((rest - 1) / 26) + name;
      rest := (rest - 1) / 26;
    }
  }

  /** The column a name stands for, read as a numeral with digits A to Z worth 1 to 26. */
  function Number(s: string): nat
    requires AllLetters(s)
  {
    if s == "" then 0 else 26 * Number(s[..|s| - 1]) + LetterValue(s[|s| - 1]) + 1
  }

  /** Every positive number has a name, and the name gives the number back. */
  lemma {:induction false} NameThenNumber(n: nat)
    ensures Number(Name(n)) == n && (Name(n) == "" <==> n == 0)
  {
    if n > 0 {
      var s := Name((n - 1) / 26);
      NameThenNumber((n - 1) / 26);
      assert (s + [Letter((n - 1) % 26)])[..|s|] == s;
    }
  }

  lemma QuotientAndRest(q: int, r: int)
    requires 0 <= r < 26
    ensures (26 * q + r) / 26 == q && (26 * q + r) % 26 == r
  {
  }

  lemma LetterBack(c: char)
    requires 'A' <= c <= 'Z'
    ensures 0 <= LetterValue(c) < 26 && Letter(LetterValue(c)) == c
  {
  }

  /** Every string of letters is the name of its number. */
  lemma {:induction false} NumberThenName(s: string)
    requires AllLetters(s)
    ensures Name(Number(s)) == s
  {
    if s != "" {
      var t, d := s[..|s| - 1], LetterValue(s[|s| - 1]);
      NumberThenName(t);
      QuotientAndRest(Number(t), d);
      LetterBack(s[|s| - 1]);
    }
  }

  // ------------------------------------------------------------ shortlex

  /** Strings of one length compared at the first place they differ. */
  predicate LexLess(s: string, t: string)
    requires |s| == |t|
  {
    s != "" && (s[0] < t[0] || (s[0] == t[0] && LexLess(s[1..], t[1..])))
  }

  /** Shorter first, then in dictionary order. */
  predicate ShortlexLess(s: string, t: string) {
    |s| < |t| || (|s| == |t| && LexLess(s, t))
  }

  function Power26(n: nat): nat {
    if n == 0 then 1 else 26 * Power26(n - 1)
  }

  /** The number of the first name of that length. */
  function FirstOfLength(n: nat): nat {
    if n == 0 then 0 else 26 * FirstOfLength(n - 1) + 1
  }

  lemma Shifted(letter: int, power: int, rest: int)
    ensures 26 * (letter * power + rest) == letter * (26 * power) + 26 * rest
  {
  }

  /** The same numeral read from its first letter. */
  lemma {:induction false} NumberFromLeft(s: string)
    requires AllLetters(s) && s != ""
    ensures Number(s) == (LetterValue(s[0]) + 1) * Power26(|s| - 1) + Number(s[1..])
  {
    if |s| > 1 {
      var t := s[..|s| - 1];
      var rest := s[1..];
      NumberFromLeft(t);
      assert rest[..|rest| - 1] == t[1..];
      Shifted(LetterValue(s[0]) + 1, Power26(|t| - 1), Number(t[1..]));
    } else {
      assert s[..0] == "" && s[1..] == "";
    }
  }

  lemma {:induction false} NumberRange(s: string)
    requires AllLetters(s)
    ensures FirstOfLength(|s|) <= Number(s) < FirstOfLength(|s|) + Power26(|s|)
    ensures FirstOfLength(|s|) + Power26(|s|) == FirstOfLength(|s| + 1)
  {
    if s != "" {
      NumberRange(s[..|s| - 1]);
    }
  }

  lemma {:induction false} FirstGrows(m: nat, n: nat)
    requires m <= n
    ensures FirstOfLength(m) <= FirstOfLength(n)
  {
    if m < n {
      FirstGrows(m, n - 1);
    }
  }

  lemma {:induction false} LexLessNumber(s: string, t: string)
    requires AllLetters(s) && AllLetters(t) && |s| == |t| && LexLess(s, t)
    ensures Number(s) < Number(t)
  {
    hide Number, Power26, FirstOfLength;
    NumberFromLeft(s);
    NumberFromLeft(t);
    if s[0] == t[0] {
      LexLessNumber(s[1..], t[1..]);
    } else {
      NumberRange(s[1..]);
      NumberRange(t[1..]);
      NextMultiple(LetterValue(s[0]), LetterValue(t[0]), Power26(|s| - 1));
    }
  }

  lemma NextMultiple(a: nat, b: nat, p: nat)
    requires a < b
    ensures (b + 1) * p >= (a + 1) * p + p
  {
    assert (b + 1) * p == (a + 1) * p + (b - a) * p;
    assert (b - a) * p == p + (b - a - 1) * p;
  }

  lemma {:induction false} LexTotal(s: string, t: string)
    requires |s| == |t|
    ensures s == t || LexLess(s, t) || LexLess(t, s)
  {
    if s != "" && s[0] == t[0] {
      LexTotal(s[1..], t[1..]);
      assert s == [s[0]] + s[1..] && t == [t[0]] + t[1..];
    }
  }

  lemma ShortlexNumber(s: string, t: string)
    requires AllLetters(s) && AllLetters(t) && ShortlexLess(s, t)
    ensures Number(s) < Number(t)
  {
    if |s| < |t| {
      NumberRange(s);
      NumberRange(t);
      FirstGrows(|s| + 1, |t|);
    } else {
      LexLessNumber(s, t);
    }
  }

  /** Names are in shortlex order exactly as their numbers are in order. */
  lemma NamesKeepOrder(m: nat, n: nat)
    ensures ShortlexLess(Name(m), Name(n)) <==> m < n
  {
    NameThenNumber(m);
    NameThenNumber(n);
    var s, t := Name(m), Name(n);
    if ShortlexLess(s, t) {
      ShortlexNumber(s, t);
    } else if m < n {
      if |s| == |t| {
        LexTotal(s, t);
      }
      ShortlexNumber(t, s);
    }
  }

  // ---------------------------------------------------------- references

  datatype Cell = Cell(reference: string, value: string)

  function Reference(column: nat, row: nat): string {
    Name(column) + Digits(row)
  }

  function RowCells(values: seq<string>, row: nat): (cs: seq<Cell>)
    ensures |cs| == |values|
    ensures forall k | 0 <= k < |values| :: cs[k] == Cell(Reference(k + 1, row), values[k])
  {
    if values == [] then []
    else RowCells(values[..|values| - 1], row) + [Cell(Reference(|values|, row), values[|values| - 1])]
  }

  function AllCells(rows: seq<seq<string>>): seq<seq<Cell>> {
    if rows == [] then [] else AllCells(rows[..|rows| - 1]) + [RowCells(rows[|rows| - 1], |rows|)]
  }

  lemma NoCells()
    ensures AllCells([]) == [] && forall row :: RowCells([], row) == []
  {
  }

  lemma RowCellsNext(values: seq<string>, k: nat, row: nat)
    requires k < |values|
    ensures RowCells(values[..k + 1], row) == RowCells(values[..k], row) + [Cell(Reference(k + 1, row), values[k])]
  {
    hide Reference;
    assert values[..k + 1][..k] == values[..k];
  }

  lemma AllCellsNext(rows: seq<seq<string>>, i: nat)
    requires i < |rows|
    ensures AllCells(rows[..i + 1]) == AllCells(rows[..i]) + [RowCells(rows[i], i + 1)]
  {
    hide RowCells;
    assert rows[..i + 1][..i] == rows[..i];
  }

  /** The sheet's rows of cells; the header is row one. */
  method Sheet(columns: seq<string>, rows: seq<seq<string>>) returns (sheet: seq<seq<Cell>>)
    ensures sheet == AllCells([columns] + rows)
  {
    hide RowCells, AllCells, Name, Digits;
    sheet := [];
    var all := [columns] + rows;
    NoCells();
    for i := 0 to |all|
      invariant sheet == AllCells(all[..i])
    {
      AllCellsNext(all, i);
      var cells: seq<Cell> := [];
      for k := 0 to |all[i]|
        invariant cells == RowCells(all[i][..k], i + 1)
      {
        RowCellsNext(all[i], k, i + 1);
        var name := ColumnName(k + 1);
        cells := cells + [Cell(name + Digits(i + 1), all[i][k])];
      }
      assert all[i][..|all[i]|] == all[i];
      sheet := sheet + [cells];
    }
    assert all[..|all|] == all;
  }

  function LetterRun(s: string): (n: nat)
    ensures n <= |s| && AllLetters(s[..n])
  {
    if s != "" && IsLetter(s[0]) then
      assert s[..1 + LetterRun(s[1..])] == [s[0]] + s[1..][..LetterRun(s[1..])];
      1 + LetterRun(s[1..])
    else 0
  }

  /** A reader of references: letters, then a numeral, then nothing. */
  function Locate(reference: string): Option<(nat, nat)> {
    var n := LetterRun(reference);
    var (row, rest) :- ReadNat(reference[n..]);
    if n == 0 || rest != "" then None else Some((Number(reference[..n]), row))
  }

  lemma {:induction false} LetterRunStops(s: string, r: string)
    requires AllLetters(s) && (r == "" || !IsLetter(r[0]))
    ensures LetterRun(s + r) == |s|
  {
    if s == "" {
      assert s + r == r;
    } else {
      assert (s + r)[1..] == s[1..] + r;
      LetterRunStops(s[1..], r);
    }
  }

  /** A reference decodes to its own column and row. */
  lemma ReferenceLocated(column: nat, row: nat)
    requires column > 0
    ensures Locate(Reference(column, row)) == Some((column, row))
  {
    hide Digits;
    var s, ds := Name(column), Digits(row);
    NameThenNumber(column);
    LetterRunStops(s, ds);
    assert (s + ds)[..|s|] == s && (s + ds)[|s|..] == ds + "";
    NumeralRead(row, "");
  }

  lemma {:induction false} CellAt(rows: seq<seq<string>>, i: nat, k: nat)
    requires i < |rows| && k < |rows[i]|
    ensures |AllCells(rows)| == |rows| && |AllCells(rows)[i]| == |rows[i]|
    ensures AllCells(rows)[i][k] == Cell(Reference(k + 1, i + 1), rows[i][k])
  {
    hide Reference;
    AllCellsLength(rows);
    if i < |rows| - 1 {
      CellAt(rows[..|rows| - 1], i, k);
    }
  }

  lemma {:induction false} AllCellsLength(rows: seq<seq<string>>)
    ensures |AllCells(rows)| == |rows|
  {
    if rows != [] {
      AllCellsLength(rows[..|rows| - 1]);
    }
  }

  /** In a rendered sheet every cell holds the table's value at the place its
      reference decodes to, so no two cells share a reference. */
  lemma SheetReferences(columns: seq<string>, rows: seq<seq<string>>, i: nat, k: nat, i': nat, k': nat)
    requires var table := [columns] + rows; i < |table| && k < |table[i]| && i' < |table| && k' < |table[i']|
    ensures var table, sheet := [columns] + rows, AllCells([columns] + rows);
            && |sheet| == |table| && |sheet[i]| == |table[i]| && |sheet[i']| == |table[i']|
            && Locate(sheet[i][k].reference) == Some((k + 1, i + 1)) && sheet[i][k].value == table[i][k]
            && (sheet[i][k].reference == sheet[i'][k'].reference ==> i == i' && k == k')
  {
    hide AllCells, Reference, Locate;
    CellAt([columns] + rows, i, k);
    CellAt([columns] + rows, i', k');
    ReferenceLocated(k + 1, i + 1);
    ReferenceLocated(k' + 1, i' + 1);
  }
}
