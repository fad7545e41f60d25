/**
 The cost ledger of SKUs: windows of validity, the open one closed when a new one starts.
 Dates are day numbers; what a row costs is carried along untouched.
 */
module CostLedger {
  import opened Wrappers

  datatype Row = Row(sku: string, start: int, end: Option<int>, costs: string)

  predicate Open(r: Row, sku: string) {
    r.sku == sku && r.end.None?
  }

  predicate HasOpen(rows: seq<Row>, sku: string) {
    exists i | 0 <= i < |rows| :: Open(rows[i], sku)
  }

  function CloseOne(r: Row, sku: string, start: int): Row {
    if Open(r, sku) && r.start < start then r.(end := Some(start)) else r
  }

  function OverwriteOne(r: Row, row: Row): Row {
    if Open(r, row.sku) then r.(start := row.start, costs := row.costs) else r
  }

  function Close(rows: seq<Row>, sku: string, start: int): seq<Row> {
    if rows == [] then [] else Close(rows[..|rows| - 1], sku, start) + [CloseOne(rows[|rows| - 1], sku, start)]
  }

  function Overwrite(rows: seq<Row>, row: Row): seq<Row> {
    if rows == [] then [] else Overwrite(rows[..|rows| - 1], row) + [OverwriteOne(rows[|rows| - 1], row)]
  }

  /** An open row closes the older open one; a second open row of the SKU is overwritten instead of inserted. */
  function Upsert(rows: seq<Row>, row: Row): seq<Row> {
    var closed := if row.end.None? then Close(rows, row.sku, row.start) else rows;
    if row.end.None? && HasOpen(closed, row.sku) then Overwrite(closed, row) else closed + [row]
  }

  function Import(rows: seq<Row>, imported: seq<Row>): seq<Row> {
    if imported == [] then rows else Upsert(Import(rows, imported[..|imported| - 1]), imported[|imported| - 1])
  }

  class Ledger {
    var rows: seq<Row>

    constructor ()
      ensures rows == []
    {
      rows := [];
    }

    method CloseOlder(sku: string, start: int)
      modifies this
      ensures rows == Close(old(rows), sku, start)
    {
      hide Close;
      ghost var was := rows;
      NoRows(sku);
      for i := 0 to |rows|
        invariant |rows| == |was| && rows[i..] == was[i..] && rows[..i] == Close(was[..i], sku, start)
      {
        CloseAppend(was[..i], was[i], sku, start);
        assert was[..i + 1] == was[..i] + [was[i]] && rows[i] == rows[i..][0] == was[i];
        if rows[i].sku == sku && rows[i].end.None? && rows[i].start < start {
          rows := rows[i := rows[i].(end := Some(start))];
        }
        assert rows[..i + 1] == rows[..i] + [rows[i]];
      }
      assert was[..|was|] == was && rows[..|rows|] == rows;
    }

    method OverwriteOpen(row: Row)
      modifies this
      ensures rows == Overwrite(old(rows), row)
    {
      hide Overwrite;
      ghost var was := rows;
      NoRows(row.sku);
      for i := 0 to |rows|
        invariant |rows| == |was| && rows[i..] == was[i..] && rows[..i] == Overwrite(was[..i], row)
      {
        OverwriteAppend(was[..i], was[i], row);
        assert was[..i + 1] == was[..i] + [was[i]] && rows[i] == rows[i..][0] == was[i];
        if Open(rows[i], row.sku) {
          rows := rows[i := rows[i].(start := row.start, costs := row.costs)];
        }
        assert rows[..i + 1] == rows[..i] + [rows[i]];
      }
      assert was[..|was|] == was && rows[..|rows|] == rows;
    }

    method UpsertRow(row: Row)
      modifies this
      ensures rows == Upsert(old(rows), row)
    {
      if row.end.None? {
        CloseOlder(row.sku, row.start);
        if HasOpen(rows, row.sku) {
          OverwriteOpen(row);
          return;
        }
      }
      rows := rows + [row];
    }

    method ImportCosts(imported: seq<Row>) returns (count: nat)
      modifies this
      ensures rows == Import(old(rows), imported) && count == |imported|
    {
      count := 0;
      ghost var was := rows;
      for i := 0 to |imported|
        invariant rows == Import(was, imported[..i]) && count == i
      {
        assert imported[..i + 1][..i] == imported[..i];
        UpsertRow(imported[i]);
        count := count + 1;
      }
      assert imported[..|imported|] == imported;
    }
  }

  // ------------------------------------------------------------ one open row

  lemma {:induction false} CloseAt(rows: seq<Row>, sku: string, start: int)
    ensures |Close(rows, sku, start)| == |rows|
    ensures forall i | 0 <= i < |rows| :: Close(rows, sku, start)[i] == CloseOne(rows[i], sku, start)
  {
    if rows != [] {
      CloseAt(rows[..|rows| - 1], sku, start);
    }
  }

  lemma {:induction false} OverwriteAt(rows: seq<Row>, row: Row)
    ensures |Overwrite(rows, row)| == |rows|
    ensures forall i | 0 <= i < |rows| :: Overwrite(rows, row)[i] == OverwriteOne(rows[i], row)
  {
    if rows != [] {
      OverwriteAt(rows[..|rows| - 1], row);
    }
  }

  ghost predicate OneOpen(rows: seq<Row>) {
    forall i, j | 0 <= i < j < |rows| && rows[i].sku == rows[j].sku && rows[i].end.None? :: rows[j].end.Some?
  }

  lemma UpsertKeepsOneOpen(rows: seq<Row>, row: Row)
    requires OneOpen(rows)
    ensures OneOpen(Upsert(rows, row))
  {
    hide Close, Overwrite;
    if row.end.None? {
      var closed := Close(rows, row.sku, row.start);
      CloseAt(rows, row.sku, row.start);
      OverwriteAt(closed, row);
      if !HasOpen(closed, row.sku) {
        forall i | 0 <= i < |closed|
          ensures !Open(closed[i], row.sku)
        {
        }
      }
    }
  }

  /** After any imports a SKU has at most one open row. */
  lemma {:induction false} ImportKeepsOneOpen(rows: seq<Row>, imported: seq<Row>)
    requires OneOpen(rows)
    ensures OneOpen(Import(rows, imported))
  {
    hide Upsert;
    if imported != [] {
      ImportKeepsOneOpen(rows, imported[..|imported| - 1]);
      UpsertKeepsOneOpen(Import(rows, imported[..|imported| - 1]), imported[|imported| - 1]);
    }
  }

  // ----------------------------------------------------------- one SKU apart

  function OfSku(rows: seq<Row>, sku: string): seq<Row> {
    if rows == [] then []
    else OfSku(rows[..|rows| - 1], sku) + if rows[|rows| - 1].sku == sku then [rows[|rows| - 1]] else []
  }

  lemma OfSkuAppend(rows: seq<Row>, r: Row, sku: string)
    ensures OfSku(rows + [r], sku) == if r.sku == sku then OfSku(rows, sku) + [r] else OfSku(rows, sku)
  {
  }

  lemma CloseAppend(rows: seq<Row>, r: Row, sku: string, start: int)
    ensures Close(rows + [r], sku, start) == Close(rows, sku, start) + [CloseOne(r, sku, start)]
  {
  }

  lemma OverwriteAppend(rows: seq<Row>, r: Row, row: Row)
    ensures Overwrite(rows + [r], row) == Overwrite(rows, row) + [OverwriteOne(r, row)]
  {
  }

  lemma {:induction false} CloseApart(rows: seq<Row>, closing: string, start: int, sku: string)
    ensures OfSku(Close(rows, closing, start), sku) == if closing == sku then Close(OfSku(rows, sku), closing, start) else OfSku(rows, sku)
  {
    hide OfSku, Close;
    if rows == [] {
      NoRows(sku);
    } else {
      var front, r := rows[..|rows| - 1], rows[|rows| - 1];
      assert rows == front + [r];
      CloseApart(front, closing, start, sku);
      OfSkuAppend(front, r, sku);
      OfSkuAppend(Close(front, closing, start), CloseOne(r, closing, start), sku);
      CloseAppend(front, r, closing, start);
      CloseAppend(OfSku(front, sku), r, closing, start);
    }
  }

  lemma {:induction false} OverwriteApart(rows: seq<Row>, row: Row, sku: string)
    ensures OfSku(Overwrite(rows, row), sku) == if row.sku == sku then Overwrite(OfSku(rows, sku), row) else OfSku(rows, sku)
  {
    hide OfSku, Overwrite;
    if rows == [] {
      NoRows(sku);
    } else {
      var front, r := rows[..|rows| - 1], rows[|rows| - 1];
      assert rows == front + [r];
      OverwriteApart(front, row, sku);
      OfSkuAppend(front, r, sku);
      OfSkuAppend(Overwrite(front, row), OverwriteOne(r, row), sku);
      OverwriteAppend(front, r, row);
      OverwriteAppend(OfSku(front, sku), r, row);
    }
  }

  lemma {:induction false} OpenApart(rows: seq<Row>, sku: string)
    ensures HasOpen(rows, sku) <==> HasOpen(OfSku(rows, sku), sku)
  {
    if rows != [] {
      var front, r := rows[..|rows| - 1], rows[|rows| - 1];
      OpenApart(front, sku);
      OpenAppend(front, r, sku);
      OpenAppend(OfSku(front, sku), r, sku);
      assert rows == front + [r];
      assert r.sku != sku ==> OfSku(rows, sku) == OfSku(front, sku);
    }
  }

  lemma OpenAppend(rows: seq<Row>, r: Row, sku: string)
    ensures HasOpen(rows + [r], sku) <==> HasOpen(rows, sku) || Open(r, sku)
  {
    var all := rows + [r];
    if HasOpen(rows, sku) {
      var i :| 0 <= i < |rows| && Open(rows[i], sku);
      assert Open(all[i], sku);
    }
    if Open(r, sku) {
      assert Open(all[|rows|], sku);
    }
    if HasOpen(all, sku) {
      var i :| 0 <= i < |all| && Open(all[i], sku);
      assert i < |rows| ==> Open(rows[i], sku);
    }
  }

  lemma NoRows(sku: string)
    ensures OfSku([], sku) == [] && (forall closing, start :: Close([], closing, start) == []) && (forall row :: Overwrite([], row) == [])
  {
  }

  /** SKUs do not touch each other's rows. */
  lemma UpsertApart(rows: seq<Row>, row: Row, sku: string)
    ensures OfSku(Upsert(rows, row), sku) == if row.sku == sku then Upsert(OfSku(rows, sku), row) else OfSku(rows, sku)
  {
    hide Close, Overwrite, OfSku, HasOpen;
    var closed := if row.end.None? then Close(rows, row.sku, row.start) else rows;
    CloseApart(rows, row.sku, row.start, sku);
    OverwriteApart(closed, row, sku);
    OfSkuAppend(closed, row, sku);
    OpenApart(closed, row.sku);
  }

  lemma {:induction false} ImportApart(rows: seq<Row>, imported: seq<Row>, sku: string)
    ensures OfSku(Import(rows, imported), sku) == Import(OfSku(rows, sku), OfSku(imported, sku))
  {
    hide Upsert;
    if imported != [] {
      var front, row := imported[..|imported| - 1], imported[|imported| - 1];
      ImportApart(rows, front, sku);
      UpsertApart(Import(rows, front), row, sku);
      ImportAppend(OfSku(rows, sku), OfSku(front, sku), row);
      assert row.sku != sku ==> OfSku(imported, sku) == OfSku(front, sku);
    }
  }

  lemma ImportAppend(rows: seq<Row>, imported: seq<Row>, row: Row)
    ensures Import(rows, imported + [row]) == Upsert(Import(rows, imported), row)
  {
  }

  // ------------------------------------------------------- windows in a row

  predicate InForce(r: Row, date: int) {
    r.start <= date && (r.end.Some? ==> date < r.end.value)
  }

  /** Windows of one SKU that follow each other without gap or overlap, the last one open. */
  ghost predicate Chain(rows: seq<Row>, sku: string) {
    && (forall i | 0 <= i < |rows| :: rows[i].sku == sku)
    && (forall i | 0 <= i < |rows| - 1 :: var next := rows[i + 1]; rows[i].end == Some(next.start) && rows[i].start < next.start)
    && (rows != [] ==> rows[|rows| - 1].end.None?)
  }

  lemma {:induction false} ChainOrder(rows: seq<Row>, sku: string, i: nat, j: nat)
    requires Chain(rows, sku) && i < j < |rows|
    ensures rows[i].end.Some? && rows[i].end.value <= rows[j].start && rows[i].start < rows[j].start
  {
    var before := rows[j - 1];
    assert before.end == Some(rows[j - 1 + 1].start);
    if i < j - 1 {
      ChainOrder(rows, sku, i, j - 1);
    }
  }

  /** Only the last row of a chain is open, so an import closes it, or overwrites it, or starts the chain. */
  lemma UpsertChain(rows: seq<Row>, row: Row)
    requires Chain(rows, row.sku) && row.end.None?
    ensures var n := |rows| - 1;
            Upsert(rows, row) ==
            if rows == [] then [row]
            else if rows[n].start < row.start then rows[..n] + [rows[n].(end := Some(row.start)), row]
            else rows[..n] + [row]
  {
    var closed := Close(rows, row.sku, row.start);
    CloseAt(rows, row.sku, row.start);
    OverwriteAt(closed, row);
    if rows != [] {
      var n := |rows| - 1;
      forall i | 0 <= i < n
        ensures closed[i] == rows[i] && !Open(closed[i], row.sku)
      {
        ChainOrder(rows, row.sku, i, n);
      }
      assert Open(rows[n], row.sku);
      if rows[n].start < row.start {
        assert !HasOpen(closed, row.sku);
        assert closed + [row] == rows[..n] + [rows[n].(end := Some(row.start)), row];
      } else {
        assert Open(closed[n], row.sku);
        assert Overwrite(closed, row) == rows[..n] + [row];
      }
    }
  }

  /** No date is in two windows. */
  ghost predicate Disjoint(rows: seq<Row>) {
    forall i, j, date | 0 <= i < j < |rows| && InForce(rows[i], date) :: !InForce(rows[j], date)
  }

  lemma ChainDisjoint(rows: seq<Row>, sku: string)
    requires Chain(rows, sku)
    ensures Disjoint(rows)
  {
    forall i, j, date | 0 <= i < j < |rows| && InForce(rows[i], date)
      ensures !InForce(rows[j], date)
    {
      ChainOrder(rows, sku, i, j);
    }
  }

  lemma ChainGrows(rows: seq<Row>, row: Row)
    requires Chain(rows, row.sku) && row.end.None? && (rows != [] ==> rows[|rows| - 1].start <= row.start)
    ensures Chain(Upsert(rows, row), row.sku)
  {
    hide Upsert;
    UpsertChain(rows, row);
  }

  /** One more open row keeps the windows apart exactly when it starts no earlier than the open one, or replaces the only one. */
  lemma StaysDisjointExactlyWhen(rows: seq<Row>, row: Row)
    requires Chain(rows, row.sku) && row.end.None?
    ensures Disjoint(Upsert(rows, row)) <==> |rows| <= 1 || rows[|rows| - 1].start <= row.start
  {
    hide Upsert;
    UpsertChain(rows, row);
    if rows == [] || rows[|rows| - 1].start <= row.start {
      ChainGrows(rows, row);
      ChainDisjoint(Upsert(rows, row), row.sku);
    } else if |rows| > 1 {
      Overlap(rows, row);
    }
  }

  lemma Overlap(rows: seq<Row>, row: Row)
    requires Chain(rows, row.sku) && row.end.None? && |rows| > 1 && row.start < rows[|rows| - 1].start
    ensures !Disjoint(Upsert(rows, row))
  {
    hide Upsert;
    UpsertChain(rows, row);
    var after, n := Upsert(rows, row), |rows| - 1;
    var last := after[n - 1];
    assert last == rows[n - 1] && last.end == Some(rows[n - 1 + 1].start);
    var date := rows[n].start - 1;
    assert InForce(after[n - 1], date) && InForce(after[n], date);
  }

  // --------------------------------------------------- any ledger, any row

  predicate Proper(r: Row) {
    r.end.Some? ==> r.start < r.end.value
  }

  /** One window ends before the other begins. */
  predicate Apart(a: Row, b: Row) {
    (a.end.Some? && a.end.value <= b.start) || (b.end.Some? && b.end.value <= a.start)
  }

  lemma ApartMeans(a: Row, b: Row)
    requires Proper(a) && Proper(b)
    ensures Apart(a, b) <==> forall date | InForce(a, date) :: !InForce(b, date)
  {
    if !Apart(a, b) {
      var date := if a.start < b.start then b.start else a.start;
      assert InForce(a, date) && InForce(b, date);
    }
  }

  ghost predicate AllApart(rows: seq<Row>) {
    forall i, j | 0 <= i < j < |rows| :: Apart(rows[i], rows[j])
  }

  lemma DisjointMeans(rows: seq<Row>)
    requires forall r | r in rows :: Proper(r)
    ensures Disjoint(rows) <==> AllApart(rows)
  {
    hide Apart, InForce, Proper;
    forall i, j | 0 <= i < j < |rows|
      ensures Apart(rows[i], rows[j]) <==> forall date | InForce(rows[i], date) :: !InForce(rows[j], date)
    {
      ApartMeans(rows[i], rows[j]);
    }
  }

  /** Windows that an import leaves in the ledger are never empty. */
  lemma UpsertKeepsProper(rows: seq<Row>, row: Row)
    requires (forall r | r in rows :: Proper(r)) && Proper(row)
    ensures forall r | r in Upsert(rows, row) :: Proper(r)
  {
    hide Close, Overwrite, HasOpen;
    CloseAt(rows, row.sku, row.start);
    OverwriteAt(Close(rows, row.sku, row.start), row);
  }

  lemma OverwrittenApart(rows: seq<Row>, row: Row, k: nat)
    requires (forall r | r in rows :: r.sku == row.sku) && OneOpen(rows) && AllApart(rows) && row.end.None?
    requires k < |rows| && rows[k].end.None? && row.start <= rows[k].start
    ensures AllApart(Upsert(rows, row)) <==> forall i | 0 <= i < |rows| && rows[i].end.Some? :: Apart(rows[i], row)
  {
    hide Close, Overwrite;
    CloseAt(rows, row.sku, row.start);
    OverwriteAt(rows, row);
    forall i | 0 <= i < |rows|
      ensures rows[i].end.None? <==> i == k
    {
    }
    assert Close(rows, row.sku, row.start) == rows;
    assert Open(rows[k], row.sku);
    var after := Upsert(rows, row);
    if forall i | 0 <= i < |rows| && rows[i].end.Some? :: Apart(rows[i], row) {
      forall i, j | 0 <= i < j < |after|
        ensures Apart(after[i], after[j])
      {
        assert Apart(rows[i], rows[j]);
      }
    }
    if AllApart(after) {
      forall i | 0 <= i < |rows| && rows[i].end.Some?
        ensures Apart(rows[i], row)
      {
        assert i < k ==> Apart(after[i], after[k]);
        assert k < i ==> Apart(after[k], after[i]);
      }
    }
  }

  lemma InsertedApart(rows: seq<Row>, row: Row)
    requires (forall r | r in rows :: r.sku == row.sku) && AllApart(rows) && row.end.None?
    requires forall r | r in rows && r.end.None? :: r.start < row.start
    ensures AllApart(Upsert(rows, row)) <==> forall i | 0 <= i < |rows| && rows[i].end.Some? :: Apart(rows[i], row)
  {
    hide Close, Overwrite;
    var closed := Close(rows, row.sku, row.start);
    CloseAt(rows, row.sku, row.start);
    assert !HasOpen(closed, row.sku);
    AppendedApart(closed, row);
    forall i, j | 0 <= i < j < |rows|
      ensures Apart(closed[i], closed[j])
    {
      assert Apart(rows[i], rows[j]);
    }
    assert forall i | 0 <= i < |rows| :: Apart(closed[i], row) <==> (rows[i].end.Some? ==> Apart(rows[i], row));
  }

  lemma AppendedApart(rows: seq<Row>, row: Row)
    requires AllApart(rows)
    ensures AllApart(rows + [row]) <==> forall i | 0 <= i < |rows| :: Apart(rows[i], row)
  {
    hide Apart;
    var all := rows + [row];
    if AllApart(all) {
      forall i | 0 <= i < |rows|
        ensures Apart(rows[i], row)
      {
        assert Apart(all[i], all[|rows|]);
      }
    }
  }

  /**
   Whatever has been imported for a SKU without overlap, one more row keeps its windows apart exactly when it is apart from
   every window other than an open one that it closes or overwrites.
   */
  lemma ImportStaysApartExactlyWhen(rows: seq<Row>, row: Row)
    requires (forall r | r in rows :: r.sku == row.sku && Proper(r)) && Proper(row) && OneOpen(rows) && Disjoint(rows)
    ensures Disjoint(Upsert(rows, row))
            <==> forall i | 0 <= i < |rows| && (row.end.Some? || rows[i].end.Some?) :: Apart(rows[i], row)
  {
    hide Upsert, Apart, InForce, OneOpen, Proper, Disjoint, AllApart;
    UpsertKeepsProper(rows, row);
    DisjointMeans(rows);
    DisjointMeans(Upsert(rows, row));
    if row.end.Some? {
      ClosedIsAppended(rows, row);
      AppendedApart(rows, row);
    } else if k: nat :| k < |rows| && rows[k].end.None? && row.start <= rows[k].start {
      OverwrittenApart(rows, row, k);
    } else {
      InsertedApart(rows, row);
    }
  }

  lemma ClosedIsAppended(rows: seq<Row>, row: Row)
    requires row.end.Some?
    ensures Upsert(rows, row) == rows + [row]
  {
  }

  /** Once windows follow each other up to an open one, only a closed row before all of them overlaps none. */
  lemma ClosedStaysDisjointExactlyWhen(rows: seq<Row>, row: Row)
    requires Chain(rows, row.sku) && row.end.Some? && row.start < row.end.value
    ensures Disjoint(Upsert(rows, row)) <==> rows == [] || row.end.value <= rows[0].start
  {
    hide Upsert, Disjoint, InForce;
    ChainDisjoint(rows, row.sku);
    ChainIsSound(rows, row.sku);
    ImportStaysApartExactlyWhen(rows, row);
    if rows != [] && row.end.value <= rows[0].start {
      forall i | 0 <= i < |rows|
        ensures Apart(rows[i], row)
      {
        if i > 0 {
          ChainOrder(rows, row.sku, 0, i);
        }
      }
    } else if rows != [] {
      ChainCovers(rows, row, |rows| - 1);
    }
  }

  lemma ChainIsSound(rows: seq<Row>, sku: string)
    requires Chain(rows, sku)
    ensures OneOpen(rows) && forall r | r in rows :: r.sku == sku && Proper(r)
  {
    forall i | 0 <= i < |rows|
      ensures Proper(rows[i]) && (i < |rows| - 1 ==> rows[i].end.Some?)
    {
      assert i < |rows| - 1 ==> rows[i].end == Some(rows[i + 1].start);
    }
  }

  /** A row that ends after the first start meets one of the windows up to any that starts before the row ends. */
  lemma {:induction false} ChainCovers(rows: seq<Row>, row: Row, k: nat)
    requires Chain(rows, row.sku) && row.end.Some? && row.start < row.end.value && k < |rows|
    requires rows[0].start < row.end.value && (k < |rows| - 1 ==> row.start < rows[k + 1].start)
    ensures exists i | 0 <= i <= k :: !Apart(rows[i], row)
  {
    assert k < |rows| - 1 ==> rows[k].end == Some(rows[k + 1].start);
    if rows[k].start < row.end.value {
      assert !Apart(rows[k], row);
    } else {
      ChainCovers(rows, row, k - 1);
      var i :| 0 <= i <= k - 1 && !Apart(rows[i], row);
    }
  }

  // ----------------------------------------------------------- as-of lookup

  ghost predicate NonDecreasing(imported: seq<Row>) {
    forall i, j | 0 <= i < j < |imported| :: imported[i].start <= imported[j].start
  }

  ghost predicate OpenOnly(imported: seq<Row>, sku: string) {
    forall i | 0 <= i < |imported| :: imported[i].sku == sku && imported[i].end.None?
  }

  /** The last imported row that starts on or before a date. */
  function LastBefore(imported: seq<Row>, date: int): Option<Row> {
    if imported == [] then None
    else if imported[|imported| - 1].start <= date then Some(imported[|imported| - 1])
    else LastBefore(imported[..|imported| - 1], date)
  }

  /** The row in force at a date; a chain has at most one. */
  function AsOf(rows: seq<Row>, date: int): Option<Row> {
    if rows == [] then None
    else if InForce(rows[|rows| - 1], date) then Some(rows[|rows| - 1])
    else AsOf(rows[..|rows| - 1], date)
  }

  predicate SameCost(a: Option<Row>, b: Option<Row>) {
    a.Some? == b.Some? && (a.Some? ==> a.value.start == b.value.start && a.value.costs == b.value.costs)
  }

  lemma AsOfAppend(rows: seq<Row>, r: Row, date: int)
    ensures AsOf(rows + [r], date) == if InForce(r, date) then Some(r) else AsOf(rows, date)
  {
  }

  /** A date before the start of the last window is looked up in the others; from then on it is the last one's. */
  lemma AsOfUpsert(rows: seq<Row>, row: Row, date: int)
    requires Chain(rows, row.sku) && row.end.None? && (rows != [] ==> rows[|rows| - 1].start <= row.start)
    ensures AsOf(Upsert(rows, row), date).Some? && row.start <= date ==> AsOf(Upsert(rows, row), date) == Some(row)
    ensures row.start <= date ==> AsOf(Upsert(rows, row), date).Some?
    ensures date < row.start ==> SameCost(AsOf(Upsert(rows, row), date), AsOf(rows, date))
  {
    hide Upsert;
    UpsertChain(rows, row);
    if rows == [] {
      AsOfAppend([], row, date);
      assert [] + [row] == [row];
    } else {
      var n := |rows| - 1;
      var closed := rows[n].(end := Some(row.start));
      AsOfAppend(rows[..n], row, date);
      AsOfAppend(rows[..n], closed, date);
      AsOfAppend(rows[..n] + [closed], row, date);
      assert rows[..n] + [closed] + [row] == rows[..n] + [closed, row];
    }
  }

  lemma {:induction false} ImportsChain(imported: seq<Row>, sku: string)
    requires OpenOnly(imported, sku) && NonDecreasing(imported)
    ensures Chain(Import([], imported), sku)
    ensures imported != [] ==> Import([], imported) != [] && Import([], imported)[|Import([], imported)| - 1] == imported[|imported| - 1]
  {
    hide Upsert;
    if imported != [] {
      var front, row := imported[..|imported| - 1], imported[|imported| - 1];
      ImportsChain(front, sku);
      var before := Import([], front);
      if front != [] {
        assert imported[|front| - 1].start <= imported[|imported| - 1].start;
      }
      ChainGrows(before, row);
      UpsertChain(before, row);
    }
  }

  lemma {:induction false} LookupIsLastImported(imported: seq<Row>, sku: string, date: int)
    requires OpenOnly(imported, sku) && NonDecreasing(imported)
    ensures SameCost(AsOf(Import([], imported), date), LastBefore(imported, date))
  {
    hide Upsert, AsOf;
    if imported == [] {
      NothingInForce(date);
    } else {
      var front, row := imported[..|imported| - 1], imported[|imported| - 1];
      ImportsChain(front, sku);
      if front != [] {
        assert imported[|front| - 1].start <= imported[|imported| - 1].start;
      }
      LookupIsLastImported(front, sku, date);
      AsOfUpsert(Import([], front), row, date);
    }
  }

  lemma NothingInForce(date: int)
    ensures AsOf([], date) == None
  {
  }

  /**
   When only open rows are imported, with non-decreasing starts for a SKU, its windows follow each other
   without gap or overlap, and the cost at any date is the last imported one that had started.
   */
  lemma LedgerPerSku(imported: seq<Row>, sku: string, date: int)
    requires OpenOnly(OfSku(imported, sku), sku) && NonDecreasing(OfSku(imported, sku))
    ensures var rows := OfSku(Import([], imported), sku);
            && Chain(rows, sku) && Disjoint(rows)
            && SameCost(AsOf(rows, date), LastBefore(OfSku(imported, sku), date))
  {
    hide Import, OfSku, AsOf, LastBefore, Chain, Disjoint;
    ImportApart([], imported, sku);
    NoRows(sku);
    ImportsChain(OfSku(imported, sku), sku);
    ChainDisjoint(OfSku(Import([], imported), sku), sku);
    LookupIsLastImported(OfSku(imported, sku), sku, date);
  }
}
