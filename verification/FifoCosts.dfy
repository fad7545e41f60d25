/**
 First-in-first-out cost allocation: a nested loop over batch balances, and the
 closed form it computes. Times are integers in the order of the ISO dates compared
 by the source; quantities and costs are exact.
 */
module FifoCosts {
  import opened Wrappers
  import opened Numbers
  import opened Ordering

  datatype Receipt = Receipt(id: string, receivedAt: int, quantity: real, unitCost: real, currency: string)
  datatype Sale = Sale(ref: string, soldAt: int, quantity: real, currency: string)

  /** A row without a batch is a shortfall, or a return with nothing to reverse. */
  datatype Allocation =
    Allocation(saleRef: string, batch: Option<string>, quantity: real, unitCost: Option<real>, cost: Option<real>, sequence: nat)

  datatype Reason = ReturnWithoutPriorCost | NegativeStock

  datatype CostError = MixedCurrencies | BadReceipt | ZeroSale

  // -------------------------------------------------------- closed form

  /** Cumulative supply of the first `k` receipts. */
  function Supply(rs: seq<Receipt>, k: nat): real
    requires k <= |rs|
  {
    if k == 0 then 0.0 else Supply(rs, k - 1) + rs[k - 1].quantity
  }

  /** How many receipts a sale at that time may draw on. */
  function Eligible(rs: seq<Receipt>, at: int): (n: nat)
    ensures n <= |rs|
  {
    if rs == [] then 0
    else if rs[|rs| - 1].receivedAt <= at then |rs|
    else Eligible(rs[..|rs| - 1], at)
  }

  ghost predicate Ordered(rs: seq<Receipt>) {
    && (forall i, j | 0 <= i < j < |rs| :: rs[i].receivedAt <= rs[j].receivedAt)
    && (forall i, j | 0 <= i < j < |rs| :: rs[i].id != rs[j].id)
    && (forall i | 0 <= i < |rs| :: rs[i].quantity > 0.0)
  }

  ghost predicate SalesOrdered(sales: seq<Sale>) {
    && (forall i, j | 0 <= i < j < |sales| :: sales[i].soldAt <= sales[j].soldAt)
    && (forall i | 0 <= i < |sales| :: sales[i].quantity != 0.0)
  }

  /** Total drawn after one more sale, when `c` was drawn before it. */
  function After(rs: seq<Receipt>, sale: Sale, c: real): real {
    if sale.quantity < 0.0 then c
    else Min(c + sale.quantity, Max(c, Supply(rs, Eligible(rs, sale.soldAt))))
  }

  /** Total drawn by the first `j` sales. */
  function Drawn(rs: seq<Receipt>, sales: seq<Sale>, j: nat): real
    requires j <= |sales|
  {
    if j == 0 then 0.0 else After(rs, sales[j - 1], Drawn(rs, sales, j - 1))
  }

  /** The part of batch `i` between the cumulative totals `lo` and `hi`. */
  function Share(rs: seq<Receipt>, i: nat, lo: real, hi: real): real
    requires i < |rs|
  {
    Max(0.0, Min(Supply(rs, i + 1), hi) - Max(Supply(rs, i), lo))
  }

  /** What is left of batch `i` once `c` has been drawn in all. */
  function Left(rs: seq<Receipt>, i: nat, c: real): real
    requires i < |rs|
  {
    Max(0.0, Supply(rs, i + 1) - Max(Supply(rs, i), c))
  }

  function Draw(r: Receipt, ref: string, quantity: real, sequence: nat): Allocation {
    Allocation(ref, Some(r.id), quantity, Some(r.unitCost), Some(quantity * r.unitCost), sequence)
  }

  /** The rows one sale takes from the first `k` batches. */
  function Rows(rs: seq<Receipt>, ref: string, lo: real, hi: real, k: nat): seq<Allocation>
    requires k <= |rs|
  {
    if k == 0 then []
    else
      var rows := Rows(rs, ref, lo, hi, k - 1);
      var share := Share(rs, k - 1, lo, hi);
      if share > 0.0 then rows + [Draw(rs[k - 1], ref, share, |rows|)] else rows
  }

  function SaleRows(rs: seq<Receipt>, sale: Sale, c: real): seq<Allocation> {
    var hi := After(rs, sale, c);
    var rows := Rows(rs, sale.ref, c, hi, |rs|);
    if hi - c < sale.quantity then rows + [Allocation(sale.ref, None, sale.quantity - (hi - c), None, None, |rows|)]
    else rows
  }

  /** The last row that carries a cost. */
  function LastCosted(rows: seq<Allocation>): (a: Option<Allocation>)
    ensures a.Some? ==> a.value.unitCost.Some?
  {
    if rows == [] then None
    else if rows[|rows| - 1].unitCost.Some? then Some(rows[|rows| - 1])
    else LastCosted(rows[..|rows| - 1])
  }

  /** A return is valued at the last known cost. */
  function ReturnRow(rows: seq<Allocation>, sale: Sale): Allocation {
    match LastCosted(rows)
    case Some(a) => Allocation(sale.ref, a.batch, sale.quantity, a.unitCost, Some(sale.quantity * a.unitCost.value), 0)
    case None => Allocation(sale.ref, None, sale.quantity, None, None, 0)
  }

  /** All rows of the first `j` sales. */
  function Ledger(rs: seq<Receipt>, sales: seq<Sale>, j: nat): seq<Allocation>
    requires j <= |sales|
  {
    if j == 0 then []
    else
      var rows, sale := Ledger(rs, sales, j - 1), sales[j - 1];
      if sale.quantity < 0.0 then rows + [ReturnRow(rows, sale)]
      else rows + SaleRows(rs, sale, Drawn(rs, sales, j - 1))
  }

  // ---------------------------------------------------------- arithmetic

  lemma {:induction false} SupplyGrows(rs: seq<Receipt>, i: nat, k: nat)
    requires i <= k <= |rs| && forall r | r in rs :: r.quantity > 0.0
    ensures 0.0 <= Supply(rs, i) <= Supply(rs, k) && (i < k ==> Supply(rs, i) < Supply(rs, k))
  {
    if i < k {
      SupplyGrows(rs, i, k - 1);
    } else if i > 0 {
      SupplyGrows(rs, i - 1, i - 1);
    }
  }

  lemma {:induction false} SupplyOfPrefix(rs: seq<Receipt>, n: nat, k: nat)
    requires k <= n <= |rs|
    ensures Supply(rs[..n], k) == Supply(rs, k)
  {
    if k > 0 {
      SupplyOfPrefix(rs, n, k - 1);
    }
  }

  /** The eligible receipts are a prefix of the ordered ones. */
  lemma {:induction false} EligiblePrefix(rs: seq<Receipt>, at: int)
    requires Ordered(rs)
    ensures forall i | 0 <= i < |rs| :: i < Eligible(rs, at) <==> rs[i].receivedAt <= at
  {
    if rs != [] && rs[|rs| - 1].receivedAt > at {
      var before := rs[..|rs| - 1];
      EligiblePrefix(before, at);
      assert forall i | 0 <= i < |before| :: before[i] == rs[i];
    }
  }

  /** What the inner loop takes from batch `b` is exactly that batch's share. */
  lemma TakeIsShare(rs: seq<Receipt>, b: nat, e: nat, lo: real, quantity: real)
    requires Ordered(rs) && b < |rs| && e <= |rs| && quantity > 0.0 && lo <= Supply(rs, e)
    ensures var hi := Min(lo + quantity, Max(lo, Supply(rs, e)));
            var at := Min(lo + quantity, Max(lo, Supply(rs, if b < e then b else e)));
            var next := Min(lo + quantity, Max(lo, Supply(rs, if b + 1 < e then b + 1 else e)));
            var needed := lo + quantity - at;
            && (b < e && needed > 0.0 ==>
                  Share(rs, b, lo, hi) == Max(0.0, Min(Left(rs, b, at), needed)) == next - at >= 0.0)
            && (b >= e || needed <= 0.0 ==> Share(rs, b, lo, hi) == 0.0 && next == at)
            && (next > at ==> Supply(rs, b) <= at && next <= Supply(rs, b + 1))
  {
    hide Supply;
    SupplyGrows(rs, b, b + 1);
    if b < e {
      SupplyGrows(rs, b + 1, e);
    } else {
      SupplyGrows(rs, e, b);
    }
  }

  /** Taking from batch `b` changes no other batch's balance. */
  lemma LeftAfterTake(rs: seq<Receipt>, b: nat, i: nat, at: real, next: real)
    requires Ordered(rs) && b < |rs| && i < |rs| && at <= next
    requires next > at ==> Supply(rs, b) <= at && next <= Supply(rs, b + 1)
    ensures Left(rs, i, next) == if i == b then Left(rs, b, at) - (next - at) else Left(rs, i, at)
  {
    if i < b {
      SupplyGrows(rs, i + 1, b);
    } else if i > b {
      SupplyGrows(rs, b + 1, i);
    }
    SupplyGrows(rs, i, i + 1);
  }

  // ---------------------------------------------------------- the loops

  /** The running total drawn within one sale after `b` batches were looked at. */
  function Reached(rs: seq<Receipt>, lo: real, quantity: real, e: nat, b: nat): real
    requires e <= |rs| && b <= |rs|
  {
    Min(lo + quantity, Max(lo, Supply(rs, if b < e then b else e)))
  }

  /** What sorting and validation have established, when no two receipts share an identifier. */
  ghost predicate Runnable(rs: seq<Receipt>, sales: seq<Sale>) {
    Ordered(rs) && SalesOrdered(sales)
  }

  ghost predicate Balanced(rs: seq<Receipt>, remaining: map<string, real>, c: real) {
    forall i | 0 <= i < |rs| :: rs[i].id in remaining && remaining[rs[i].id] == Left(rs, i, c)
  }

  /** One balance an identifier: the last receipt that has it sets it. */
  function Balances(rs: seq<Receipt>): (remaining: map<string, real>)
    ensures forall r | r in rs :: r.id in remaining
  {
    if rs == [] then map[]
    else
      var front, last := rs[..|rs| - 1], rs[|rs| - 1];
      assert forall r | r in rs :: r in front || r == last;
      Balances(front)[last.id := last.quantity]
  }

  /** A sale in the middle of the batches: its rows so far, what it still needs, and the balances. */
  datatype Selling = Selling(rows: seq<Allocation>, needed: real, remaining: map<string, real>)

  function Sold(rs: seq<Receipt>, sale: Sale, remaining: map<string, real>, k: nat): (s: Selling)
    requires k <= |rs| && forall r | r in rs :: r.id in remaining
    ensures s.remaining.Keys == remaining.Keys
  {
    if k == 0 then Selling([], sale.quantity, remaining)
    else
      var s, r := Sold(rs, sale, remaining, k - 1), rs[k - 1];
      var used := Min(s.remaining[r.id], s.needed);
      if r.receivedAt <= sale.soldAt && s.needed > 0.0 && used > 0.0 then
        Selling(s.rows + [Draw(r, sale.ref, used, |s.rows|)], s.needed - used, s.remaining[r.id := s.remaining[r.id] - used])
      else s
  }

  datatype Books = Books(rows: seq<Allocation>, reason: Option<Reason>, remaining: map<string, real>)

  function Shipped(rs: seq<Receipt>, sale: Sale, books: Books): Books
    requires forall r | r in rs :: r.id in books.remaining
  {
    var s := Sold(rs, sale, books.remaining, |rs|);
    if s.needed > 0.0 then
      Books(books.rows + s.rows + [Allocation(sale.ref, None, s.needed, None, None, |s.rows|)], Some(NegativeStock), s.remaining)
    else Books(books.rows + s.rows, books.reason, s.remaining)
  }

  function Returned(sale: Sale, books: Books): Books {
    var row := ReturnRow(books.rows, sale);
    books.(rows := books.rows + [row], reason := if row.unitCost.None? then Some(ReturnWithoutPriorCost) else books.reason)
  }

  /** The books after the first `j` sales, whatever the identifiers of the receipts are. */
  function Run(rs: seq<Receipt>, sales: seq<Sale>, j: nat): (books: Books)
    requires j <= |sales|
    ensures forall r | r in rs :: r.id in books.remaining
  {
    if j == 0 then Books([], None, Balances(rs))
    else
      var books := Run(rs, sales, j - 1);
      if sales[j - 1].quantity < 0.0 then Returned(sales[j - 1], books) else Shipped(rs, sales[j - 1], books)
  }

  method Fifo(rs: seq<Receipt>, sales: seq<Sale>) returns (output: seq<Allocation>, reason: Option<Reason>)
    ensures var books := Run(rs, sales, |sales|); output == books.rows && reason == books.reason
    ensures Runnable(rs, sales) ==> (output, reason) == Outcome(rs, sales)
  {
    hide ReturnRow, Sold, Balances, Runnable, Outcome;
    var remaining: map<string, real> := map[];
    NoBalances();
    for i := 0 to |rs|
      invariant remaining == Balances(rs[..i])
    {
      OneMoreBalance(rs, i);
      remaining := remaining[rs[i].id := rs[i].quantity];
    }
    assert rs[..|rs|] == rs;
    output := [];
    reason := None;
    for j := 0 to |sales|
      invariant Books(output, reason, remaining) == Run(rs, sales, j)
    {
      var sale := sales[j];
      if sale.quantity < 0.0 {
        var row := ReturnRow(output, sale);
        output := output + [row];
        if row.unitCost.None? {
          reason := Some(ReturnWithoutPriorCost);
        }
      } else {
        output, reason, remaining := SellOne(rs, sale, output, reason, remaining);
      }
    }
    if Runnable(rs, sales) {
      RunIsLedger(rs, sales, |sales|);
      OutcomeIs(rs, sales);
    }
  }

  lemma NoBalances()
    ensures Balances([]) == map[]
  {
  }

  lemma OneMoreBalance(rs: seq<Receipt>, i: nat)
    requires i < |rs|
    ensures Balances(rs[..i + 1]) == Balances(rs[..i])[rs[i].id := rs[i].quantity]
  {
    assert rs[..i + 1][..i] == rs[..i];
  }

  lemma OutcomeIs(rs: seq<Receipt>, sales: seq<Sale>)
    ensures Outcome(rs, sales) == (Ledger(rs, sales, |sales|), ReasonOf(rs, sales, |sales|))
  {
  }

  /** One positive sale: the inner loop over the batches. */
  method SellOne(rs: seq<Receipt>, sale: Sale, rows: seq<Allocation>, soFar: Option<Reason>, balances: map<string, real>)
    returns (output: seq<Allocation>, reason: Option<Reason>, remaining: map<string, real>)
    requires forall r | r in rs :: r.id in balances
    ensures Books(output, reason, remaining) == Shipped(rs, sale, Books(rows, soFar, balances))
  {
    hide Draw, Min, Sold;
    NothingSold(rs, sale, balances);
    var needed, sequence := sale.quantity, 0;
    output, reason, remaining := rows, soFar, balances;
    for b := 0 to |rs|
      invariant var s := Sold(rs, sale, balances, b);
                output == rows + s.rows && sequence == |s.rows| && needed == s.needed && remaining == s.remaining
    {
      var batch := rs[b];
      assert batch in rs;
      SoldStep(rs, sale, balances, b);
      if batch.receivedAt <= sale.soldAt && needed > 0.0 {
        var used := Min(remaining[batch.id], needed);
        if used > 0.0 {
          output := output + [Draw(batch, sale.ref, used, sequence)];
          remaining := remaining[batch.id := remaining[batch.id] - used];
          needed := needed - used;
          sequence := sequence + 1;
        }
      }
    }
    if needed > 0.0 {
      output := output + [Allocation(sale.ref, None, needed, None, None, sequence)];
      reason := Some(NegativeStock);
    }
  }

  lemma NothingSold(rs: seq<Receipt>, sale: Sale, remaining: map<string, real>)
    requires forall r | r in rs :: r.id in remaining
    ensures Sold(rs, sale, remaining, 0) == Selling([], sale.quantity, remaining)
  {
  }

  /** What one more batch does to a sale. */
  lemma SoldStep(rs: seq<Receipt>, sale: Sale, remaining: map<string, real>, b: nat)
    requires b < |rs| && forall r | r in rs :: r.id in remaining
    ensures var s, next := Sold(rs, sale, remaining, b), Sold(rs, sale, remaining, b + 1);
            && rs[b] in rs && rs[b].id in s.remaining
            && var used := Min(s.remaining[rs[b].id], s.needed);
            if rs[b].receivedAt <= sale.soldAt && s.needed > 0.0 && used > 0.0 then
              next == Selling(s.rows + [Draw(rs[b], sale.ref, used, |s.rows|)], s.needed - used, s.remaining[rs[b].id := s.remaining[rs[b].id] - used])
            else next == s
  {
  }

  // ------------------------------------------- the loops and the closed form

  lemma {:induction false} StartBalanced(rs: seq<Receipt>)
    requires Ordered(rs)
    ensures Balanced(rs, Balances(rs), 0.0)
  {
    hide Ordered, Left;
    BalancesAre(rs);
    forall i | 0 <= i < |rs|
      ensures Left(rs, i, 0.0) == rs[i].quantity
    {
      LeftRange(rs, i, 0.0);
    }
  }

  lemma {:induction false} BalancesAre(rs: seq<Receipt>)
    requires Ordered(rs)
    ensures forall i | 0 <= i < |rs| :: rs[i].id in Balances(rs) && Balances(rs)[rs[i].id] == rs[i].quantity
  {
    if rs != [] {
      BalancesAre(rs[..|rs| - 1]);
      assert forall i | 0 <= i < |rs| - 1 :: rs[..|rs| - 1][i] == rs[i];
    }
  }

  /** After `k` batches a sale has the closed form's rows, and the balances are what the closed form leaves. */
  lemma {:induction false} SoldIsRows(rs: seq<Receipt>, sale: Sale, remaining: map<string, real>, c: real, k: nat)
    requires Ordered(rs) && sale.quantity > 0.0 && 0.0 <= c <= Supply(rs, Eligible(rs, sale.soldAt)) && k <= |rs|
    requires Balanced(rs, remaining, c) && forall r | r in rs :: r.id in remaining
    ensures var s, reached := Sold(rs, sale, remaining, k), Reached(rs, c, sale.quantity, Eligible(rs, sale.soldAt), k);
            s.rows == Rows(rs, sale.ref, c, After(rs, sale, c), k) && s.needed == c + sale.quantity - reached && Balanced(rs, s.remaining, reached)
  {
    hide Supply, Share, Left, Ordered, Balanced, Reached, After, Eligible;
    var e, hi := Eligible(rs, sale.soldAt), After(rs, sale, c);
    if k == 0 {
      ReachedAtStart(rs, c, sale.quantity, e);
    } else {
      var b := k - 1;
      var at, next := Reached(rs, c, sale.quantity, e, b), Reached(rs, c, sale.quantity, e, k);
      var s := Sold(rs, sale, remaining, b);
      SoldIsRows(rs, sale, remaining, c, b);
      EligiblePrefix(rs, sale.soldAt);
      TakeStep(rs, sale, b, e, c);
      BalanceOf(rs, s.remaining, at, b);
      if next > at {
        BalancedAfterTake(rs, s.remaining, b, at, next);
      }
    }
  }

  lemma BalanceOf(rs: seq<Receipt>, remaining: map<string, real>, c: real, i: nat)
    requires Balanced(rs, remaining, c) && i < |rs|
    ensures rs[i].id in remaining && remaining[rs[i].id] == Left(rs, i, c)
  {
  }

  lemma ShippedIsSaleRows(rs: seq<Receipt>, sale: Sale, books: Books, c: real)
    requires Ordered(rs) && sale.quantity > 0.0 && 0.0 <= c <= Supply(rs, Eligible(rs, sale.soldAt))
    requires Balanced(rs, books.remaining, c) && forall r | r in rs :: r.id in books.remaining
    ensures var after := Shipped(rs, sale, books);
            && after.rows == books.rows + SaleRows(rs, sale, c)
            && after.reason == (if After(rs, sale, c) - c < sale.quantity then Some(NegativeStock) else books.reason)
            && Balanced(rs, after.remaining, After(rs, sale, c))
  {
    hide Supply, Ordered, Balanced, Reached, After, Eligible, Sold, Rows;
    SoldIsRows(rs, sale, books.remaining, c, |rs|);
    ReachedAtEnd(rs, sale, c);
    var s := Sold(rs, sale, books.remaining, |rs|);
    var short := [Allocation(sale.ref, None, s.needed, None, None, |s.rows|)];
    assert books.rows + s.rows + short == books.rows + (s.rows + short);
  }

  /** With distinct identifiers the loops compute the closed form. */
  lemma {:induction false} RunIsLedger(rs: seq<Receipt>, sales: seq<Sale>, j: nat)
    requires Runnable(rs, sales) && j <= |sales|
    ensures var books := Run(rs, sales, j);
            books.rows == Ledger(rs, sales, j) && books.reason == ReasonOf(rs, sales, j) && Balanced(rs, books.remaining, Drawn(rs, sales, j))
  {
    hide Supply, Ordered, Balanced, After, Eligible, SaleRows, ReturnRow, Shipped, Balances;
    if j == 0 {
      StartBalanced(rs);
    } else {
      var sale, c := sales[j - 1], Drawn(rs, sales, j - 1);
      RunIsLedger(rs, sales, j - 1);
      DrawnAt(rs, sales, j - 1);
      if sale.quantity > 0.0 {
        ShippedIsSaleRows(rs, sale, Run(rs, sales, j - 1), c);
      } else {
        ReturnDrawsNothing(rs, sale, c);
      }
    }
  }

  lemma DrawnAt(rs: seq<Receipt>, sales: seq<Sale>, j: nat)
    requires Runnable(rs, sales) && j < |sales|
    ensures 0.0 <= Drawn(rs, sales, j) <= Supply(rs, Eligible(rs, sales[j].soldAt)) && sales[j].quantity != 0.0
  {
    DrawnWithinEligible(rs, sales, j);
  }

  lemma ReturnDrawsNothing(rs: seq<Receipt>, sale: Sale, c: real)
    requires sale.quantity <= 0.0 && sale.quantity != 0.0
    ensures After(rs, sale, c) == c
  {
  }

  lemma ReachedAtStart(rs: seq<Receipt>, c: real, quantity: real, e: nat)
    requires 0.0 <= c && quantity > 0.0 && e <= |rs|
    ensures Reached(rs, c, quantity, e, 0) == c
  {
  }

  lemma ReachedAtEnd(rs: seq<Receipt>, sale: Sale, c: real)
    requires sale.quantity > 0.0
    ensures Reached(rs, c, sale.quantity, Eligible(rs, sale.soldAt), |rs|) == After(rs, sale, c)
  {
  }

  lemma TakeStep(rs: seq<Receipt>, sale: Sale, b: nat, e: nat, c: real)
    requires Ordered(rs) && b < |rs| && e == Eligible(rs, sale.soldAt) && sale.quantity > 0.0 && c <= Supply(rs, e)
    ensures var at, next := Reached(rs, c, sale.quantity, e, b), Reached(rs, c, sale.quantity, e, b + 1);
            var needed, share := c + sale.quantity - at, Share(rs, b, c, After(rs, sale, c));
            && at <= next && needed >= 0.0
            && (next > at ==> Supply(rs, b) <= at && next <= Supply(rs, b + 1))
            && share == next - at
            && (b < e && needed > 0.0 ==> share == Max(0.0, Min(Left(rs, b, at), needed)))
            && (b >= e || needed <= 0.0 ==> share == 0.0)
  {
    hide Supply, Share, Left, Ordered;
    TakeIsShare(rs, b, e, c, sale.quantity);
  }

  lemma BalancedAfterTake(rs: seq<Receipt>, remaining: map<string, real>, b: nat, at: real, next: real)
    requires Ordered(rs) && b < |rs| && Balanced(rs, remaining, at) && at <= next
    requires next > at ==> Supply(rs, b) <= at && next <= Supply(rs, b + 1)
    ensures Balanced(rs, remaining[rs[b].id := remaining[rs[b].id] - (next - at)], next)
  {
    forall i | 0 <= i < |rs|
      ensures Left(rs, i, next) == if i == b then Left(rs, b, at) - (next - at) else Left(rs, i, at)
    {
      LeftAfterTake(rs, b, i, at, next);
    }
  }

  function ReasonOf(rs: seq<Receipt>, sales: seq<Sale>, j: nat): Option<Reason>
    requires j <= |sales|
  {
    if j == 0 then None
    else
      var before, sale, c := ReasonOf(rs, sales, j - 1), sales[j - 1], Drawn(rs, sales, j - 1);
      if sale.quantity < 0.0 then
        if ReturnRow(Ledger(rs, sales, j - 1), sale).unitCost.None? then Some(ReturnWithoutPriorCost) else before
      else if After(rs, sale, c) - c < sale.quantity then Some(NegativeStock)
      else before
  }

  /** The rows of all sales and the last reason for being incomplete. */
  function Outcome(rs: seq<Receipt>, sales: seq<Sale>): (seq<Allocation>, Option<Reason>) {
    (Ledger(rs, sales, |sales|), ReasonOf(rs, sales, |sales|))
  }

  /** No sale draws beyond what was eligible when it was made. */
  lemma {:induction false} DrawnWithinEligible(rs: seq<Receipt>, sales: seq<Sale>, j: nat)
    requires Ordered(rs) && SalesOrdered(sales) && j <= |sales|
    ensures 0.0 <= Drawn(rs, sales, j)
    ensures forall t | (forall i | 0 <= i < j :: sales[i].soldAt <= t) :: Drawn(rs, sales, j) <= Supply(rs, Eligible(rs, t))
  {
    if j > 0 {
      DrawnWithinEligible(rs, sales, j - 1);
      var at := sales[j - 1].soldAt;
      forall t | forall i | 0 <= i < j :: sales[i].soldAt <= t
        ensures Drawn(rs, sales, j) <= Supply(rs, Eligible(rs, t))
      {
        EligibleGrows(rs, at, t);
      }
    } else {
      forall t: int
        ensures 0.0 <= Supply(rs, Eligible(rs, t))
      {
        SupplyGrows(rs, 0, Eligible(rs, t));
      }
    }
  }

  lemma EligibleGrows(rs: seq<Receipt>, t: int, u: int)
    requires Ordered(rs) && t <= u
    ensures Eligible(rs, t) <= Eligible(rs, u) && Supply(rs, Eligible(rs, t)) <= Supply(rs, Eligible(rs, u))
  {
    EligiblePrefix(rs, t);
    EligiblePrefix(rs, u);
    var n := Eligible(rs, t);
    if n > 0 {
      assert rs[n - 1].receivedAt <= t;
    }
    SupplyGrows(rs, Eligible(rs, t), Eligible(rs, u));
  }

  // ------------------------------------------------------------ theorems

  function Quantities(rows: seq<Allocation>): real {
    if rows == [] then 0.0 else Quantities(rows[..|rows| - 1]) + rows[|rows| - 1].quantity
  }

  lemma QuantitiesGrow(rows: seq<Allocation>, row: Allocation)
    ensures Quantities(rows + [row]) == Quantities(rows) + row.quantity
  {
  }

  lemma DrawnQuantity(r: Receipt, ref: string, quantity: real, sequence: nat)
    ensures Draw(r, ref, quantity, sequence).quantity == quantity
  {
  }

  lemma NothingCovered(rs: seq<Receipt>, lo: real, hi: real)
    requires 0.0 <= lo <= hi
    ensures Max(0.0, Min(Supply(rs, 0), hi) - lo) == Quantities([]) == 0.0
  {
  }

  lemma ShareIsPositive(rs: seq<Receipt>, i: nat, lo: real, hi: real)
    requires i < |rs|
    ensures Share(rs, i, lo, hi) >= 0.0
  {
  }

  lemma ShareCovers(rs: seq<Receipt>, i: nat, lo: real, hi: real)
    requires Ordered(rs) && i < |rs| && 0.0 <= lo <= hi
    ensures Max(0.0, Min(Supply(rs, i), hi) - lo) + Share(rs, i, lo, hi) == Max(0.0, Min(Supply(rs, i + 1), hi) - lo)
    ensures Share(rs, i, lo, hi) == Left(rs, i, lo) - Left(rs, i, hi) >= 0.0
  {
    SupplyGrows(rs, i, i + 1);
  }

  lemma LeftRange(rs: seq<Receipt>, i: nat, c: real)
    requires Ordered(rs) && i < |rs|
    ensures 0.0 <= Left(rs, i, c) <= rs[i].quantity && Left(rs, i, 0.0) == rs[i].quantity
  {
    SupplyGrows(rs, 0, i);
    SupplyGrows(rs, i, i + 1);
  }

  lemma DrawnGrows(rs: seq<Receipt>, sales: seq<Sale>, j: nat)
    requires Ordered(rs) && SalesOrdered(sales) && j < |sales|
    ensures 0.0 <= Drawn(rs, sales, j) <= Drawn(rs, sales, j + 1)
  {
    DrawnWithinEligible(rs, sales, j);
  }

  /** The shares of the first `k` batches add up to the stretch they cover. */
  lemma {:induction false} RowsConserve(rs: seq<Receipt>, ref: string, lo: real, hi: real, k: nat)
    requires Ordered(rs) && k <= |rs| && 0.0 <= lo <= hi
    ensures Quantities(Rows(rs, ref, lo, hi, k)) == Max(0.0, Min(Supply(rs, k), hi) - lo)
  {
    hide Supply, Share, Draw, Min, Max, Quantities;
    if k == 0 {
      NothingCovered(rs, lo, hi);
    } else {
      RowsConserve(rs, ref, lo, hi, k - 1);
      ShareCovers(rs, k - 1, lo, hi);
      ShareIsPositive(rs, k - 1, lo, hi);
      var share := Share(rs, k - 1, lo, hi);
      var draw := Draw(rs[k - 1], ref, share, |Rows(rs, ref, lo, hi, k - 1)|);
      DrawnQuantity(rs[k - 1], ref, share, |Rows(rs, ref, lo, hi, k - 1)|);
      QuantitiesGrow(Rows(rs, ref, lo, hi, k - 1), draw);
    }
  }

  /** A positive sale's rows sum to its quantity. */
  lemma SaleConserves(rs: seq<Receipt>, sales: seq<Sale>, j: nat)
    requires Ordered(rs) && SalesOrdered(sales) && j < |sales| && sales[j].quantity > 0.0
    ensures Ledger(rs, sales, j + 1) == Ledger(rs, sales, j) + SaleRows(rs, sales[j], Drawn(rs, sales, j))
    ensures Quantities(SaleRows(rs, sales[j], Drawn(rs, sales, j))) == sales[j].quantity
  {
    hide Supply, Rows, Quantities, After;
    var sale, lo, hi := sales[j], Drawn(rs, sales, j), Drawn(rs, sales, j + 1);
    DrawnGrows(rs, sales, j);
    DrawnWithinSupply(rs, sales, j);
    RowsConserve(rs, sale.ref, lo, hi, |rs|);
    var rows := Rows(rs, sale.ref, lo, hi, |rs|);
    QuantitiesGrow(rows, Allocation(sale.ref, None, sale.quantity - (hi - lo), None, None, |rows|));
  }

  lemma DrawnWithinSupply(rs: seq<Receipt>, sales: seq<Sale>, j: nat)
    requires Ordered(rs) && SalesOrdered(sales) && j < |sales| && sales[j].quantity > 0.0
    ensures Drawn(rs, sales, j + 1) <= Supply(rs, |rs|)
    ensures Drawn(rs, sales, j + 1) - Drawn(rs, sales, j) <= sales[j].quantity
  {
    var e := Eligible(rs, sales[j].soldAt);
    DrawnWithinEligible(rs, sales, j);
    SupplyGrows(rs, e, |rs|);
  }

  /** A sale falls short only when all eligible stock is gone. */
  lemma ShortfallEmptiesStock(rs: seq<Receipt>, sales: seq<Sale>, j: nat)
    requires Ordered(rs) && SalesOrdered(sales) && j < |sales| && sales[j].quantity > 0.0
    requires Drawn(rs, sales, j + 1) - Drawn(rs, sales, j) < sales[j].quantity
    ensures var hi := Drawn(rs, sales, j + 1);
            forall i | 0 <= i < |rs| && rs[i].receivedAt <= sales[j].soldAt :: Left(rs, i, hi) == 0.0
  {
    var hi, e := Drawn(rs, sales, j + 1), Eligible(rs, sales[j].soldAt);
    DrawnWithinEligible(rs, sales, j);
    EligiblePrefix(rs, sales[j].soldAt);
    forall i | 0 <= i < |rs| && rs[i].receivedAt <= sales[j].soldAt
      ensures Left(rs, i, hi) == 0.0
    {
      SupplyGrows(rs, i + 1, e);
    }
  }

  /** Greedy order: a batch is used only when every earlier one is empty, and never
      before it was received. */
  lemma GreedyOrder(rs: seq<Receipt>, sales: seq<Sale>, j: nat, i: nat)
    requires Ordered(rs) && SalesOrdered(sales) && j < |sales| && i < |rs|
    requires Share(rs, i, Drawn(rs, sales, j), Drawn(rs, sales, j + 1)) > 0.0
    ensures rs[i].receivedAt <= sales[j].soldAt
    ensures var hi := Drawn(rs, sales, j + 1); forall k | 0 <= k < i :: Left(rs, k, hi) == 0.0
  {
    var sale, hi := sales[j], Drawn(rs, sales, j + 1);
    var e := Eligible(rs, sale.soldAt);
    DrawnWithinEligible(rs, sales, j);
    EligiblePrefix(rs, sale.soldAt);
    SupplyGrows(rs, i, i + 1);
    if i >= e {
      SupplyGrows(rs, e, i);
    }
    forall k | 0 <= k < i
      ensures Left(rs, k, hi) == 0.0
    {
      SupplyGrows(rs, k + 1, i);
    }
  }

  /** Everything batch `i` gave away in the first `j` sales. */
  function Given(rs: seq<Receipt>, sales: seq<Sale>, i: nat, j: nat): real
    requires i < |rs| && j <= |sales|
  {
    if j == 0 then 0.0
    else Given(rs, sales, i, j - 1) + Share(rs, i, Drawn(rs, sales, j - 1), Drawn(rs, sales, j))
  }

  /** No batch is overdrawn: given and left always make the received quantity. */
  lemma {:induction false} BatchConserves(rs: seq<Receipt>, sales: seq<Sale>, i: nat, j: nat)
    requires Ordered(rs) && SalesOrdered(sales) && i < |rs| && j <= |sales|
    ensures Given(rs, sales, i, j) + Left(rs, i, Drawn(rs, sales, j)) == rs[i].quantity
    ensures 0.0 <= Given(rs, sales, i, j) <= rs[i].quantity
  {
    hide Supply, Share, Left, After;
    LeftRange(rs, i, Drawn(rs, sales, j));
    if j > 0 {
      BatchConserves(rs, sales, i, j - 1);
      DrawnGrows(rs, sales, j - 1);
      ShareCovers(rs, i, Drawn(rs, sales, j - 1), Drawn(rs, sales, j));
    }
  }

  /** Cumulative positive demand. */
  function Demand(sales: seq<Sale>, j: nat): real
    requires j <= |sales|
  {
    if j == 0 then 0.0 else Demand(sales, j - 1) + Max(0.0, sales[j - 1].quantity)
  }

  /** Without a shortfall the total drawn is the total demanded, so sale `j` takes from
      batch `i` exactly the overlap of its demand with that batch's supply. */
  lemma {:induction false} ClosedForm(rs: seq<Receipt>, sales: seq<Sale>, j: nat)
    requires Ordered(rs) && SalesOrdered(sales) && j <= |sales|
    requires forall k | 0 <= k < j && sales[k].quantity > 0.0 :: Drawn(rs, sales, k + 1) - Drawn(rs, sales, k) >= sales[k].quantity
    ensures Drawn(rs, sales, j) == Demand(sales, j)
    ensures forall i: nat | i < |rs| && j > 0 ::
              (Share(rs, i, Drawn(rs, sales, j - 1), Drawn(rs, sales, j))
               == Max(0.0, Min(Supply(rs, i + 1), Demand(sales, j)) - Max(Supply(rs, i), Demand(sales, j - 1))))
  {
    hide Supply, After, Min;
    if j > 0 {
      ClosedForm(rs, sales, j - 1);
      FilledDrawsAll(rs, sales[j - 1], Drawn(rs, sales, j - 1));
    }
  }

  lemma FilledDrawsAll(rs: seq<Receipt>, sale: Sale, c: real)
    requires sale.quantity > 0.0 ==> After(rs, sale, c) - c >= sale.quantity
    ensures sale.quantity != 0.0 ==> After(rs, sale, c) == c + Max(0.0, sale.quantity)
  {
    hide Supply, Eligible;
  }

  predicate Costed(a: Allocation) {
    a.unitCost.Some? && a.cost.Some? && a.cost.value == a.quantity * a.unitCost.value
  }

  ghost predicate AllCosted(rows: seq<Allocation>) {
    forall a | a in rows :: Costed(a)
  }

  lemma CostedConcat(rows: seq<Allocation>, more: seq<Allocation>)
    ensures AllCosted(rows + more) <==> AllCosted(rows) && AllCosted(more)
  {
  }

  lemma DrawCosted(r: Receipt, ref: string, quantity: real, sequence: nat)
    ensures Costed(Draw(r, ref, quantity, sequence))
  {
  }

  lemma ReturnCosted(rows: seq<Allocation>, sale: Sale)
    ensures Costed(ReturnRow(rows, sale)) <==> ReturnRow(rows, sale).unitCost.Some?
  {
  }

  lemma OneCosted(a: Allocation)
    ensures AllCosted([a]) <==> Costed(a)
  {
  }

  lemma {:induction false} RowsCosted(rs: seq<Receipt>, ref: string, lo: real, hi: real, k: nat)
    requires k <= |rs|
    ensures AllCosted(Rows(rs, ref, lo, hi, k))
  {
    hide AllCosted, Share, Costed, Draw;
    if k > 0 {
      RowsCosted(rs, ref, lo, hi, k - 1);
      var rows := Rows(rs, ref, lo, hi, k - 1);
      var draw := Draw(rs[k - 1], ref, Share(rs, k - 1, lo, hi), |rows|);
      DrawCosted(rs[k - 1], ref, Share(rs, k - 1, lo, hi), |rows|);
      OneCosted(draw);
      CostedConcat(rows, [draw]);
    } else {
      NoneCosted();
    }
  }

  lemma NoneCosted()
    ensures AllCosted([])
  {
  }

  lemma SaleCosted(rs: seq<Receipt>, sale: Sale, c: real)
    ensures AllCosted(SaleRows(rs, sale, c)) <==> After(rs, sale, c) - c >= sale.quantity
  {
    hide After, Rows, AllCosted;
    var rows := Rows(rs, sale.ref, c, After(rs, sale, c), |rs|);
    var short := Allocation(sale.ref, None, sale.quantity - (After(rs, sale, c) - c), None, None, |rows|);
    RowsCosted(rs, sale.ref, c, After(rs, sale, c), |rs|);
    OneCosted(short);
    CostedConcat(rows, [short]);
  }

  /** The run is complete exactly when every row of it carries a cost. */
  lemma {:induction false} CompleteWhenCosted(rs: seq<Receipt>, sales: seq<Sale>, j: nat)
    requires j <= |sales|
    ensures ReasonOf(rs, sales, j) == None <==> AllCosted(Ledger(rs, sales, j))
  {
    hide After, SaleRows, Drawn, AllCosted, Costed, ReturnRow;
    NoneCosted();
    if j > 0 {
      CompleteWhenCosted(rs, sales, j - 1);
      var rows, sale, c := Ledger(rs, sales, j - 1), sales[j - 1], Drawn(rs, sales, j - 1);
      if sale.quantity < 0.0 {
        ReturnCosted(rows, sale);
        OneCosted(ReturnRow(rows, sale));
        CostedConcat(rows, [ReturnRow(rows, sale)]);
      } else {
        SaleCosted(rs, sale, c);
        CostedConcat(rows, SaleRows(rs, sale, c));
      }
    }
  }

  // ---------------------------------------------------- the whole calculation

  predicate ReceiptLeq(a: Receipt, b: Receipt) {
    a.receivedAt < b.receivedAt || (a.receivedAt == b.receivedAt && StrLeq(a.id, b.id))
  }

  predicate SaleLeq(a: Sale, b: Sale) {
    a.soldAt < b.soldAt || (a.soldAt == b.soldAt && StrLeq(a.ref, b.ref))
  }

  lemma KeysAreTotal()
    ensures Total(ReceiptLeq) && Total(SaleLeq)
  {
    forall s: string, t: string
      ensures StrLeq(s, t) || StrLeq(t, s)
    {
      StrTotal(s, t);
    }
    forall s: string, t: string, u: string | StrLeq(s, t) && StrLeq(t, u)
      ensures StrLeq(s, u)
    {
      StrTransitive(s, t, u);
    }
  }

  /** All inputs use one currency. */
  predicate OneCurrency(rs: seq<Receipt>, sales: seq<Sale>) {
    && (forall r, r' | r in rs && r' in rs :: r.currency == r'.currency)
    && (forall s, s' | s in sales && s' in sales :: s.currency == s'.currency)
    && (forall r, s | r in rs && s in sales :: r.currency == s.currency)
  }

  function Currencies(rs: seq<Receipt>, sales: seq<Sale>): set<string> {
    (set r | r in rs :: r.currency) + (set s | s in sales :: s.currency)
  }

  lemma CurrenciesCounted(rs: seq<Receipt>, sales: seq<Sale>)
    ensures OneCurrency(rs, sales) <==> |Currencies(rs, sales)| <= 1
  {
    var all := Currencies(rs, sales);
    if OneCurrency(rs, sales) && all != {} {
      var c :| c in all;
      assert all == {c};
    }
    if |all| <= 1 {
      forall c, d | c in all && d in all
        ensures c == d
      {
        assert |all - {c}| == |all| - 1;
      }
      assert forall r | r in rs :: r.currency in all;
      assert forall s | s in sales :: s.currency in all;
    }
  }

  predicate UsableReceipt(r: Receipt) {
    r.quantity > 0.0 && r.unitCost >= 0.0
  }

  /** Every receipt occurs once, and no two share an identifier. */
  ghost predicate DistinctIds(rs: seq<Receipt>) {
    && (forall r | r in rs :: multiset(rs)[r] == 1)
    && (forall r, r' | r in rs && r' in rs && r.id == r'.id :: r == r')
  }

  function SortedReceipts(rs: seq<Receipt>): seq<Receipt> {
    Sort(ReceiptLeq, rs)
  }

  function SortedSales(sales: seq<Sale>): seq<Sale> {
    Sort(SaleLeq, sales)
  }

  method Calculate(receipts: seq<Receipt>, sales: seq<Sale>) returns (r: Result<(seq<Allocation>, Option<Reason>), CostError>)
    ensures !OneCurrency(receipts, sales) ==> r == Err(MixedCurrencies)
    ensures OneCurrency(receipts, sales) && (exists x | x in receipts :: x.quantity <= 0.0 || x.unitCost < 0.0) ==> r == Err(BadReceipt)
    ensures OneCurrency(receipts, sales) && (forall x | x in receipts :: x.quantity > 0.0 && x.unitCost >= 0.0) ==>
              if exists s | s in sales :: s.quantity == 0.0 then r == Err(ZeroSale)
              else
                var rs, ss := SortedReceipts(receipts), SortedSales(sales);
                var books := Run(rs, ss, |ss|);
                r == Ok((books.rows, books.reason)) && ((forall i, j | 0 <= i < j < |receipts| :: receipts[i].id != receipts[j].id) ==> r == Ok(Outcome(rs, ss)))
  {
    CurrenciesCounted(receipts, sales);
    if |Currencies(receipts, sales)| > 1 {
      return Err(MixedCurrencies);
    }
    if exists x | x in receipts :: x.quantity <= 0.0 || x.unitCost < 0.0 {
      return Err(BadReceipt);
    }
    if exists s | s in sales :: s.quantity == 0.0 {
      return Err(ZeroSale);
    }
    if forall i, j | 0 <= i < j < |receipts| :: receipts[i].id != receipts[j].id {
      OwnIdsAreDistinct(receipts);
      SortedInputs(receipts, sales);
    }
    var rows, reason := Fifo(SortedReceipts(receipts), SortedSales(sales));
    r := Ok((rows, reason));
  }

  lemma {:induction false} OwnIdsAreDistinct(rs: seq<Receipt>)
    requires forall i, j | 0 <= i < j < |rs| :: rs[i].id != rs[j].id
    ensures DistinctIds(rs)
  {
    if rs != [] {
      var front, last := rs[..|rs| - 1], rs[|rs| - 1];
      OwnIdsAreDistinct(front);
      assert rs == front + [last];
      assert last !in front;
    }
  }

  /** Receipts are taken by arrival and then by identifier, sales by their time and then by reference. */
  lemma InputsInOrder(receipts: seq<Receipt>, sales: seq<Sale>)
    ensures multiset(SortedReceipts(receipts)) == multiset(receipts) && multiset(SortedSales(sales)) == multiset(sales)
    ensures var rs := SortedReceipts(receipts);
            forall i, j | 0 <= i < j < |rs| ::
              rs[i].receivedAt < rs[j].receivedAt || (rs[i].receivedAt == rs[j].receivedAt && StrLeq(rs[i].id, rs[j].id))
    ensures var ss := SortedSales(sales);
            forall i, j | 0 <= i < j < |ss| :: ss[i].soldAt < ss[j].soldAt || (ss[i].soldAt == ss[j].soldAt && StrLeq(ss[i].ref, ss[j].ref))
  {
    hide Total, Sort;
    KeysAreTotal();
    SortWorks(ReceiptLeq, receipts);
    SortWorks(SaleLeq, sales);
  }

  /** Sorting delivers what the loops rely on. */
  lemma SortedInputs(receipts: seq<Receipt>, sales: seq<Sale>)
    requires DistinctIds(receipts) && (forall x | x in receipts :: UsableReceipt(x)) && forall s | s in sales :: s.quantity != 0.0
    ensures Ordered(SortedReceipts(receipts)) && SalesOrdered(SortedSales(sales))
  {
    hide Total, Sort, DistinctIds;
    KeysAreTotal();
    SortWorks(ReceiptLeq, receipts);
    SortWorks(SaleLeq, sales);
    SameMembers(SortedReceipts(receipts), receipts);
    SameMembers(SortedSales(sales), sales);
    DistinctOrdered(receipts, SortedReceipts(receipts));
    var rs, ss := SortedReceipts(receipts), SortedSales(sales);
    assert forall i | 0 <= i < |rs| :: rs[i] in rs && UsableReceipt(rs[i]);
    assert forall i | 0 <= i < |ss| :: ss[i] in ss && ss[i].quantity != 0.0;
    SortedTimes(rs, ss);
  }

  lemma SortedTimes(rs: seq<Receipt>, sales: seq<Sale>)
    requires Sorted(ReceiptLeq, rs) && Sorted(SaleLeq, sales)
    ensures forall i, j | 0 <= i < j < |rs| :: rs[i].receivedAt <= rs[j].receivedAt
    ensures forall i, j | 0 <= i < j < |sales| :: sales[i].soldAt <= sales[j].soldAt
  {
  }

  lemma DistinctOrdered(rs: seq<Receipt>, ts: seq<Receipt>)
    requires DistinctIds(rs) && multiset(rs) == multiset(ts)
    ensures forall i, j | 0 <= i < j < |ts| :: ts[i].id != ts[j].id
  {
    SameMembers(rs, ts);
    forall i, j | 0 <= i < j < |ts|
      ensures ts[i].id != ts[j].id
    {
      assert ts[i] in rs && ts[j] in rs;
      if ts[i] == ts[j] {
        CountTwice(ts, i, j);
      }
    }
  }

  /** The result does not depend on the order in which receipts and sales are given. */
  lemma InputOrderIrrelevant(receipts: seq<Receipt>, sales: seq<Sale>, receipts': seq<Receipt>, sales': seq<Sale>)
    requires DistinctIds(receipts) && multiset(receipts) == multiset(receipts') && multiset(sales) == multiset(sales')
    requires forall s, s' | s in sales && s' in sales && s.soldAt == s'.soldAt && s.ref == s'.ref :: s == s'
    ensures SortedReceipts(receipts) == SortedReceipts(receipts') && SortedSales(sales) == SortedSales(sales')
  {
    KeysAreTotal();
    forall x: string, y: string
      ensures StrLeq(x, y) && StrLeq(y, x) ==> x == y
    {
      StrTotal(x, y);
    }
    assert NoTies(ReceiptLeq, receipts);
    assert NoTies(SaleLeq, sales);
    SortIgnoresOrder(ReceiptLeq, receipts, receipts');
    SortIgnoresOrder(SaleLeq, sales, sales');
  }
}
