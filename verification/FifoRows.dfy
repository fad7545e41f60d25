/**
 What the rows of a first-in-first-out run say about each batch and each sale, and what becomes of receipts that share
 an identifier, and with it one balance.
 */
module FifoRows {
  import opened Wrappers
  import opened Numbers
  import opened FifoCosts

  // ------------------------------------------------------------- by batch

  /** What rows of positive quantity take under an identifier. */
  function From(rows: seq<Allocation>, id: string): real {
    if rows == [] then 0.0
    else
      var last := rows[|rows| - 1];
      From(rows[..|rows| - 1], id) + if last.batch == Some(id) && last.quantity > 0.0 then last.quantity else 0.0
  }

  lemma {:induction false} FromConcat(rows: seq<Allocation>, more: seq<Allocation>, id: string)
    ensures From(rows + more, id) == From(rows, id) + From(more, id)
  {
    if more == [] {
      assert rows + more == rows;
    } else {
      var front := more[..|more| - 1];
      assert (rows + more)[..|rows + more| - 1] == rows + front;
      FromConcat(rows, front, id);
    }
  }

  lemma FromOne(row: Allocation, id: string)
    ensures From([row], id) == if row.batch == Some(id) && row.quantity > 0.0 then row.quantity else 0.0
  {
    assert [row][..0] == [];
  }

  lemma {:induction false} RowsFrom(rs: seq<Receipt>, ref: string, lo: real, hi: real, k: nat, i: nat)
    requires Ordered(rs) && k <= |rs| && i < |rs|
    ensures From(Rows(rs, ref, lo, hi, k), rs[i].id) == if i < k then Share(rs, i, lo, hi) else 0.0
  {
    hide Share, From;
    if k == 0 {
      NothingFrom(rs[i].id);
    } else {
      var rows, share := Rows(rs, ref, lo, hi, k - 1), Share(rs, k - 1, lo, hi);
      var draw := Draw(rs[k - 1], ref, share, |rows|);
      RowsFrom(rs, ref, lo, hi, k - 1, i);
      ShareIsPositive(rs, k - 1, lo, hi);
      FromConcat(rows, [draw], rs[i].id);
      FromOne(draw, rs[i].id);
    }
  }

  lemma NothingFrom(id: string)
    ensures From([], id) == 0.0
  {
  }

  lemma SaleFrom(rs: seq<Receipt>, sale: Sale, c: real, i: nat)
    requires Ordered(rs) && i < |rs|
    ensures From(SaleRows(rs, sale, c), rs[i].id) == Share(rs, i, c, After(rs, sale, c))
  {
    hide Share, From, Rows, After;
    var hi := After(rs, sale, c);
    var rows := Rows(rs, sale.ref, c, hi, |rs|);
    var short := Allocation(sale.ref, None, sale.quantity - (hi - c), None, None, |rows|);
    RowsFrom(rs, sale.ref, c, hi, |rs|, i);
    FromConcat(rows, [short], rs[i].id);
    FromOne(short, rs[i].id);
  }

  /** The rows of a run take from batch `i` what it gave; returns take nothing. */
  lemma {:induction false} LedgerFrom(rs: seq<Receipt>, sales: seq<Sale>, i: nat, j: nat)
    requires Ordered(rs) && i < |rs| && j <= |sales|
    ensures From(Ledger(rs, sales, j), rs[i].id) == Given(rs, sales, i, j)
  {
    hide Share, From, SaleRows, ReturnRow, Ordered;
    if j == 0 {
      NothingFrom(rs[i].id);
    } else {
      var rows, sale, c := Ledger(rs, sales, j - 1), sales[j - 1], Drawn(rs, sales, j - 1);
      LedgerFrom(rs, sales, i, j - 1);
      if sale.quantity < 0.0 {
        NothingReturned(rs, rows, sale, c, i);
        FromConcat(rows, [ReturnRow(rows, sale)], rs[i].id);
      } else {
        SaleFrom(rs, sale, c, i);
        FromConcat(rows, SaleRows(rs, sale, c), rs[i].id);
      }
    }
  }

  lemma NothingReturned(rs: seq<Receipt>, rows: seq<Allocation>, sale: Sale, c: real, i: nat)
    requires i < |rs| && sale.quantity < 0.0
    ensures From([ReturnRow(rows, sale)], rs[i].id) == 0.0 && Share(rs, i, c, After(rs, sale, c)) == 0.0
  {
    hide Supply, LastCosted;
    FromOne(ReturnRow(rows, sale), rs[i].id);
  }

  /** The rows naming a batch and what is left of it always make what was received. */
  lemma RowsAndStock(rs: seq<Receipt>, sales: seq<Sale>, i: nat, j: nat)
    requires Ordered(rs) && SalesOrdered(sales) && i < |rs| && j <= |sales|
    ensures From(Ledger(rs, sales, j), rs[i].id) + Left(rs, i, Drawn(rs, sales, j)) == rs[i].quantity
    ensures 0.0 <= From(Ledger(rs, sales, j), rs[i].id) <= rs[i].quantity
  {
    hide Ledger, From, Left, Drawn, Given;
    LedgerFrom(rs, sales, i, j);
    BatchConserves(rs, sales, i, j);
  }

  // -------------------------------------------------------------- by row

  lemma {:induction false} RowSource(rs: seq<Receipt>, ref: string, lo: real, hi: real, k: nat, i: nat, row: Allocation)
    requires Ordered(rs) && k <= |rs| && i < |rs| && row in Rows(rs, ref, lo, hi, k) && row.batch == Some(rs[i].id)
    ensures row.quantity == Share(rs, i, lo, hi) > 0.0 && row.unitCost == Some(rs[i].unitCost)
  {
    hide Share;
    if k > 0 && row in Rows(rs, ref, lo, hi, k - 1) {
      RowSource(rs, ref, lo, hi, k - 1, i, row);
    } else if k > 0 {
      assert row.batch == Some(rs[k - 1].id);
    }
  }

  /**
   A sale's row names a batch that had been received by then, at its cost, for the whole of its share; and every earlier
   batch is then empty.
   */
  lemma RowIsShare(rs: seq<Receipt>, sales: seq<Sale>, j: nat, i: nat, row: Allocation)
    requires Ordered(rs) && SalesOrdered(sales) && j < |sales| && sales[j].quantity > 0.0 && i < |rs|
    requires row in SaleRows(rs, sales[j], Drawn(rs, sales, j)) && row.batch == Some(rs[i].id)
    ensures row.quantity == Share(rs, i, Drawn(rs, sales, j), Drawn(rs, sales, j + 1)) > 0.0 && row.unitCost == Some(rs[i].unitCost)
    ensures rs[i].receivedAt <= sales[j].soldAt
    ensures var hi := Drawn(rs, sales, j + 1); forall k | 0 <= k < i :: Left(rs, k, hi) == 0.0
  {
    hide Share, Rows, After, Left, Ordered, SalesOrdered;
    var lo, hi := Drawn(rs, sales, j), Drawn(rs, sales, j + 1);
    RowSource(rs, sales[j].ref, lo, hi, |rs|, i, row);
    GreedyOrder(rs, sales, j, i);
  }

  /** Without a shortfall so far, a row holds the overlap of cumulative demand with its batch's place in cumulative supply. */
  lemma RowIsOverlap(rs: seq<Receipt>, sales: seq<Sale>, j: nat, i: nat, row: Allocation)
    requires Ordered(rs) && SalesOrdered(sales) && j < |sales| && sales[j].quantity > 0.0 && i < |rs|
    requires row in SaleRows(rs, sales[j], Drawn(rs, sales, j)) && row.batch == Some(rs[i].id)
    requires forall k | 0 <= k < j + 1 && sales[k].quantity > 0.0 :: Drawn(rs, sales, k + 1) - Drawn(rs, sales, k) >= sales[k].quantity
    ensures row.quantity == Min(Supply(rs, i + 1), Demand(sales, j + 1)) - Max(Supply(rs, i), Demand(sales, j))
  {
    hide Share, SaleRows, Left, Drawn, Supply, Demand;
    RowIsShare(rs, sales, j, i, row);
    ClosedForm(rs, sales, j + 1);
  }

  /** Rows carry the sale's reference and are numbered in their order. */
  predicate Numbered(rows: seq<Allocation>, ref: string) {
    forall i | 0 <= i < |rows| :: rows[i].saleRef == ref && rows[i].sequence == i
  }

  lemma NumberedMore(rows: seq<Allocation>, row: Allocation, ref: string)
    requires Numbered(rows, ref) && row.saleRef == ref && row.sequence == |rows|
    ensures Numbered(rows + [row], ref)
  {
  }

  lemma DrawNumbered(r: Receipt, ref: string, quantity: real, sequence: nat)
    ensures Draw(r, ref, quantity, sequence).saleRef == ref && Draw(r, ref, quantity, sequence).sequence == sequence
  {
  }

  lemma {:induction false} RowsNumbered(rs: seq<Receipt>, ref: string, lo: real, hi: real, k: nat)
    requires k <= |rs|
    ensures Numbered(Rows(rs, ref, lo, hi, k), ref)
  {
    hide Share, Draw;
    if k > 0 {
      RowsNumbered(rs, ref, lo, hi, k - 1);
      var rows, share := Rows(rs, ref, lo, hi, k - 1), Share(rs, k - 1, lo, hi);
      DrawNumbered(rs[k - 1], ref, share, |rows|);
      NumberedMore(rows, Draw(rs[k - 1], ref, share, |rows|), ref);
    }
  }

  lemma SaleRowsNumbered(rs: seq<Receipt>, sale: Sale, c: real)
    ensures Numbered(SaleRows(rs, sale, c), sale.ref)
  {
    hide Rows, After, Numbered;
    var hi := After(rs, sale, c);
    var rows := Rows(rs, sale.ref, c, hi, |rs|);
    RowsNumbered(rs, sale.ref, c, hi, |rs|);
    NumberedMore(rows, Allocation(sale.ref, None, sale.quantity - (hi - c), None, None, |rows|), sale.ref);
  }

  lemma {:induction false} LastCostedAt(rows: seq<Allocation>, i: nat)
    requires i < |rows| && rows[i].unitCost.Some? && forall k | i < k < |rows| :: rows[k].unitCost.None?
    ensures LastCosted(rows) == Some(rows[i])
  {
    if i < |rows| - 1 {
      LastCostedAt(rows[..|rows| - 1], i);
    }
  }

  lemma {:induction false} NoneCosted(rows: seq<Allocation>)
    requires forall i | 0 <= i < |rows| :: rows[i].unitCost.None?
    ensures LastCosted(rows) == None
  {
    if rows != [] {
      NoneCosted(rows[..|rows| - 1]);
    }
  }

  /** A return is valued like the last row that had a cost, under the same batch; it has no value when none had. */
  lemma ReturnLaw(rows: seq<Allocation>, sale: Sale, i: nat)
    requires i < |rows| ==> rows[i].unitCost.Some?
    requires forall k | 0 <= k < |rows| && (i < k || i >= |rows|) :: rows[k].unitCost.None?
    ensures var row := ReturnRow(rows, sale);
            && row.saleRef == sale.ref && row.quantity == sale.quantity && row.sequence == 0
            && if i < |rows| then row.batch == rows[i].batch && row.unitCost == rows[i].unitCost && Costed(row)
               else row.batch == None && row.unitCost == None && row.cost == None
  {
    hide LastCosted, Costed;
    if i < |rows| {
      LastCostedAt(rows, i);
      ReturnCosted(rows, sale);
    } else {
      NoneCosted(rows);
    }
  }

  // ---------------------------------------------------- shared identifiers

  /** Everything received under an identifier. */
  function Received(rs: seq<Receipt>, id: string): real {
    if rs == [] then 0.0
    else Received(rs[..|rs| - 1], id) + if rs[|rs| - 1].id == id then rs[|rs| - 1].quantity else 0.0
  }

  ghost predicate OwnIds(rs: seq<Receipt>) {
    forall i, j | 0 <= i < j < |rs| :: rs[i].id != rs[j].id
  }

  lemma {:induction false} ReceivedAt(rs: seq<Receipt>, id: string)
    requires forall r | r in rs :: r.quantity > 0.0
    ensures Received(rs, id) >= 0.0
    ensures Received(rs, id) > 0.0 <==> exists i | 0 <= i < |rs| :: rs[i].id == id
    ensures id in Balances(rs) <==> exists i | 0 <= i < |rs| :: rs[i].id == id
    ensures id in Balances(rs) ==> Balances(rs)[id] <= Received(rs, id)
  {
    if rs != [] {
      var front := rs[..|rs| - 1];
      assert rs[|rs| - 1] in rs;
      ReceivedAt(front, id);
      assert forall i | 0 <= i < |front| :: front[i] == rs[i];
      if i :| 0 <= i < |front| && front[i].id == id {
        assert rs[i].id == id;
      }
    }
  }

  /** The balances hold all the stock exactly when no two receipts share an identifier. */
  lemma {:induction false} AllStockHeldExactlyWhen(rs: seq<Receipt>)
    requires forall r | r in rs :: r.quantity > 0.0
    ensures (forall id | id in Balances(rs) :: Balances(rs)[id] == Received(rs, id)) <==> OwnIds(rs)
  {
    if rs != [] {
      var front, last := rs[..|rs| - 1], rs[|rs| - 1];
      assert last in rs;
      assert forall i | 0 <= i < |front| :: front[i] == rs[i] && front[i] in rs;
      AllStockHeldExactlyWhen(front);
      forall id: string
        ensures id in Balances(rs) ==> Balances(rs)[id] <= Received(rs, id)
      {
        ReceivedAt(rs, id);
      }
      ReceivedAt(front, last.id);
      if OwnIds(rs) {
        OwnIdsHold(rs);
      } else {
        SomeLost(rs);
      }
    }
  }

  lemma OwnIdsHold(rs: seq<Receipt>)
    requires (forall r | r in rs :: r.quantity > 0.0) && rs != [] && OwnIds(rs)
    requires var front := rs[..|rs| - 1]; forall id | id in Balances(front) :: Balances(front)[id] == Received(front, id)
    ensures forall id | id in Balances(rs) :: Balances(rs)[id] == Received(rs, id)
  {
    var front, last := rs[..|rs| - 1], rs[|rs| - 1];
    assert forall r | r in front :: r in rs;
    ReceivedAt(front, last.id);
    assert forall i | 0 <= i < |front| :: front[i] == rs[i];
  }

  lemma SomeLost(rs: seq<Receipt>)
    requires (forall r | r in rs :: r.quantity > 0.0) && rs != [] && !OwnIds(rs)
    requires var front := rs[..|rs| - 1];
             (forall id | id in Balances(front) :: Balances(front)[id] == Received(front, id)) <==> OwnIds(front)
    ensures exists id | id in Balances(rs) :: Balances(rs)[id] != Received(rs, id)
  {
    var front, last := rs[..|rs| - 1], rs[|rs| - 1];
    assert forall r | r in front :: r in rs;
    ReceivedAt(front, last.id);
    if Received(front, last.id) > 0.0 {
      assert last.id in Balances(rs) && Balances(rs)[last.id] != Received(rs, last.id);
    } else {
      assert forall i | 0 <= i < |front| :: front[i].id != last.id;
      assert forall i | 0 <= i < |front| :: rs[i] == front[i];
      assert !OwnIds(front);
      var id :| id in Balances(front) && Balances(front)[id] != Received(front, id);
      ReceivedAt(front, id);
      assert id in Balances(rs) && Balances(rs)[id] != Received(rs, id);
    }
  }

  /** Two batches of ten and of five under one identifier cannot even fill an order for eleven. */
  lemma SharedIdFallsShort(id: string, at: int, cost: real, currency: string, ref: string)
    ensures var rs := [Receipt(id, at, 10.0, cost, currency), Receipt(id, at, 5.0, cost, currency)];
            var books := Run(rs, [Sale(ref, at, 11.0, currency)], 1);
            && books.reason == Some(NegativeStock) && From(books.rows, id) == 5.0 && Received(rs, id) == 15.0
  {
    hide Draw;
    var a, b := Receipt(id, at, 10.0, cost, currency), Receipt(id, at, 5.0, cost, currency);
    var rs, sale := [a, b], Sale(ref, at, 11.0, currency);
    assert rs[..1] == [a] && [a][..0] == [];
    NoBalances();
    assert Balances([a]) == map[id := 10.0];
    assert Balances(rs) == map[id := 5.0];
    var draw := Draw(a, ref, 5.0, 0);
    assert Sold(rs, sale, Balances(rs), 1).rows == [draw];
    assert Sold(rs, sale, Balances(rs), 2).needed == 6.0;
    var short := Allocation(ref, None, 6.0, None, None, 1);
    assert Run(rs, [sale], 1).rows == [draw] + [short];
    DrawIs(a, ref);
    FromConcat([draw], [short], id);
    FromOne(draw, id);
    FromOne(short, id);
    assert Received([a], id) == 10.0;
  }

  lemma DrawIs(r: Receipt, ref: string)
    ensures Draw(r, ref, 5.0, 0).quantity == 5.0 && Draw(r, ref, 5.0, 0).batch == Some(r.id)
  {
  }

  /** Whatever the identifiers, a positive sale's rows add up to its quantity. */
  lemma {:induction false} SoldConserves(rs: seq<Receipt>, sale: Sale, remaining: map<string, real>, k: nat)
    requires sale.quantity > 0.0 && k <= |rs| && forall r | r in rs :: r.id in remaining
    ensures var s := Sold(rs, sale, remaining, k); s.needed >= 0.0 && Quantities(s.rows) + s.needed == sale.quantity
  {
    hide Draw, Quantities;
    if k == 0 {
      assert Quantities([]) == 0.0 by {
        NoQuantities();
      }
    } else {
      SoldConserves(rs, sale, remaining, k - 1);
      var s, r := Sold(rs, sale, remaining, k - 1), rs[k - 1];
      assert r in rs;
      var used := Min(s.remaining[r.id], s.needed);
      DrawnQuantity(r, sale.ref, used, |s.rows|);
      QuantitiesGrow(s.rows, Draw(r, sale.ref, used, |s.rows|));
    }
  }

  lemma NoQuantities()
    ensures Quantities([]) == 0.0
  {
  }

  lemma ShippedConserves(rs: seq<Receipt>, sale: Sale, books: Books)
    requires sale.quantity > 0.0 && forall r | r in rs :: r.id in books.remaining
    ensures var after := Shipped(rs, sale, books).rows;
            books.rows <= after && Quantities(after[|books.rows|..]) == sale.quantity
  {
    hide Sold, Quantities;
    SoldConserves(rs, sale, books.remaining, |rs|);
    var s := Sold(rs, sale, books.remaining, |rs|);
    var short := Allocation(sale.ref, None, s.needed, None, None, |s.rows|);
    QuantitiesGrow(s.rows, short);
    var after := Shipped(rs, sale, books).rows;
    assert after[|books.rows|..] == if s.needed > 0.0 then s.rows + [short] else s.rows;
  }
}
