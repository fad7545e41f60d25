/**
 Weighted-average costing, over all earlier receipts or those of the sale's own month, and
 the choice between the costing methods.
 */
module AverageCosts {
  import opened Wrappers
  import opened FifoCosts
  import opened Ordering

  datatype Failure = UnsupportedMethod | BadInput(error: CostError)

  /** The month of an instant, as its first seven characters tell it. */
  type Month = int -> int

  predicate Usable(r: Receipt, sale: Sale, byPeriod: bool, month: Month) {
    r.receivedAt <= sale.soldAt && (byPeriod ==> month(r.receivedAt) == month(sale.soldAt))
  }

  function Stock(rs: seq<Receipt>, sale: Sale, byPeriod: bool, month: Month): seq<Receipt> {
    if rs == [] then []
    else
      var last := rs[|rs| - 1];
      Stock(rs[..|rs| - 1], sale, byPeriod, month) + if Usable(last, sale, byPeriod, month) then [last] else []
  }

  function Quantity(rs: seq<Receipt>): real {
    if rs == [] then 0.0 else Quantity(rs[..|rs| - 1]) + rs[|rs| - 1].quantity
  }

  function Value(rs: seq<Receipt>): real {
    if rs == [] then 0.0 else Value(rs[..|rs| - 1]) + rs[|rs| - 1].quantity * rs[|rs| - 1].unitCost
  }

  /** The average cost of a unit in stock. */
  function AverageCost(stock: seq<Receipt>): real
    requires Quantity(stock) > 0.0
  {
    Value(stock) / Quantity(stock)
  }

  lemma SomeStock(stock: seq<Receipt>)
    ensures Quantity(stock) != 0.0 ==> stock != []
  {
  }

  function AverageRow(stock: seq<Receipt>, sale: Sale): Allocation {
    if Quantity(stock) <= 0.0 then Allocation(sale.ref, None, sale.quantity, None, None, 0)
    else
      SomeStock(stock);
      Allocation(sale.ref, Some(stock[|stock| - 1].id), sale.quantity, Some(AverageCost(stock)), Some(sale.quantity * AverageCost(stock)), 0)
  }

  /** The last sale without stock decides the reason. */
  function AverageReason(rs: seq<Receipt>, sales: seq<Sale>, byPeriod: bool, month: Month): Option<Reason> {
    if sales == [] then None
    else
      var sale := sales[|sales| - 1];
      if Quantity(Stock(rs, sale, byPeriod, month)) <= 0.0 then
        Some(if sale.quantity > 0.0 then NegativeStock else ReturnWithoutPriorCost)
      else AverageReason(rs, sales[..|sales| - 1], byPeriod, month)
  }

  /** One row a sale. */
  function AverageRows(rs: seq<Receipt>, sales: seq<Sale>, byPeriod: bool, month: Month): (rows: seq<Allocation>)
    ensures |rows| == |sales|
    ensures forall i | 0 <= i < |sales| :: rows[i] == AverageRow(Stock(rs, sales[i], byPeriod, month), sales[i])
  {
    seq(|sales|, i requires 0 <= i < |sales| => AverageRow(Stock(rs, sales[i], byPeriod, month), sales[i]))
  }

  /** The first thing wrong with a calculation. */
  function Refused(costing: string, receipts: seq<Receipt>, sales: seq<Sale>): Option<Failure> {
    if costing !in {"fifo", "weighted_average", "by_period"} then Some(UnsupportedMethod)
    else if !OneCurrency(receipts, sales) then Some(BadInput(MixedCurrencies))
    else if exists x | x in receipts :: !UsableReceipt(x) then Some(BadInput(BadReceipt))
    else if exists s | s in sales :: s.quantity == 0.0 then Some(BadInput(ZeroSale))
    else None
  }

  method Average(rs: seq<Receipt>, sales: seq<Sale>, byPeriod: bool, month: Month) returns (output: seq<Allocation>, reason: Option<Reason>)
    ensures |output| == |sales|
    ensures forall i | 0 <= i < |sales| :: output[i] == AverageRow(Stock(rs, sales[i], byPeriod, month), sales[i])
    ensures reason == AverageReason(rs, sales, byPeriod, month)
  {
    hide AverageRow;
    output, reason := [], None;
    for i := 0 to |sales|
      invariant |output| == i
      invariant forall k | 0 <= k < i :: output[k] == AverageRow(Stock(rs, sales[k], byPeriod, month), sales[k])
      invariant reason == AverageReason(rs, sales[..i], byPeriod, month)
    {
      assert sales[..i + 1][..i] == sales[..i];
      var sale := sales[i];
      var stock := Stock(rs, sale, byPeriod, month);
      output := output + [AverageRow(stock, sale)];
      if Quantity(stock) <= 0.0 {
        reason := Some(if sale.quantity > 0.0 then NegativeStock else ReturnWithoutPriorCost);
      }
    }
    assert sales[..|sales|] == sales;
  }

  /** The costing methods under one roof; which of them is meant is checked first. */
  method Calculate(costing: string, receipts: seq<Receipt>, sales: seq<Sale>, month: Month)
    returns (r: Result<(seq<Allocation>, Option<Reason>), Failure>)
    ensures r == match Refused(costing, receipts, sales)
                 case Some(e) => Err(e)
                 case None =>
                   var rs, ss := SortedReceipts(receipts), SortedSales(sales);
                   if costing == "fifo" then Ok((Run(rs, ss, |ss|).rows, Run(rs, ss, |ss|).reason))
                   else Ok((AverageRows(rs, ss, costing == "by_period", month), AverageReason(rs, ss, costing == "by_period", month)))
  {
    if costing !in {"fifo", "weighted_average", "by_period"} {
      return Err(UnsupportedMethod);
    }
    if costing == "fifo" {
      var done := FifoCosts.Calculate(receipts, sales);
      return if done.Ok? then Ok(done.value) else Err(BadInput(done.error));
    }
    CurrenciesCounted(receipts, sales);
    if |Currencies(receipts, sales)| > 1 {
      return Err(BadInput(MixedCurrencies));
    }
    if exists x | x in receipts :: x.quantity <= 0.0 || x.unitCost < 0.0 {
      return Err(BadInput(BadReceipt));
    }
    if exists s | s in sales :: s.quantity == 0.0 {
      return Err(BadInput(ZeroSale));
    }
    var rows, reason := Average(SortedReceipts(receipts), SortedSales(sales), costing == "by_period", month);
    assert rows == AverageRows(SortedReceipts(receipts), SortedSales(sales), costing == "by_period", month);
    return Ok((rows, reason));
  }

  // --------------------------------------------------- what an average is

  lemma {:induction false} StockIsUsable(rs: seq<Receipt>, sale: Sale, byPeriod: bool, month: Month)
    ensures forall r :: r in Stock(rs, sale, byPeriod, month) <==> r in rs && Usable(r, sale, byPeriod, month)
  {
    if rs != [] {
      StockIsUsable(rs[..|rs| - 1], sale, byPeriod, month);
      assert rs == rs[..|rs| - 1] + [rs[|rs| - 1]];
    }
  }

  /** Usable receipts always have stock. */
  lemma {:induction false} PositiveQuantity(stock: seq<Receipt>)
    requires forall r | r in stock :: r.quantity > 0.0
    ensures stock != [] <==> Quantity(stock) > 0.0
  {
    if stock != [] {
      PositiveQuantity(stock[..|stock| - 1]);
      assert stock[|stock| - 1] in stock;
    }
  }

  lemma {:induction false} ValueBetween(stock: seq<Receipt>, low: real, high: real)
    requires forall r | r in stock :: r.quantity > 0.0 && low <= r.unitCost <= high
    ensures low * Quantity(stock) <= Value(stock) <= high * Quantity(stock)
  {
    hide Quantity, Value;
    if stock == [] {
      NoStock();
    } else {
      var front, last := stock[..|stock| - 1], stock[|stock| - 1];
      assert last in stock;
      ValueBetween(front, low, high);
      Scaled(last.quantity, low, last.unitCost, high);
      LastInStock(stock);
      Added(low, high, Quantity(front), Value(front), last.quantity, last.quantity * last.unitCost, Quantity(stock), Value(stock));
    }
  }

  lemma NoStock()
    ensures Quantity([]) == 0.0 && Value([]) == 0.0
  {
  }

  lemma LastInStock(stock: seq<Receipt>)
    requires stock != []
    ensures var front, last := stock[..|stock| - 1], stock[|stock| - 1];
            Quantity(stock) == Quantity(front) + last.quantity && Value(stock) == Value(front) + last.quantity * last.unitCost
  {
  }

  lemma Scaled(q: real, low: real, cost: real, high: real)
    requires q > 0.0 && low <= cost <= high
    ensures low * q <= q * cost <= high * q
  {
  }

  lemma Added(low: real, high: real, quantity: real, value: real, more: real, cost: real, total: real, sum: real)
    requires total == quantity + more && sum == value + cost
    requires low * quantity <= value <= high * quantity && low * more <= cost <= high * more
    ensures low * total <= sum <= high * total
  {
  }

  lemma Divided(low: real, value: real, high: real, q: real)
    requires q > 0.0 && low * q <= value <= high * q
    ensures low <= value / q <= high && value / q * q == value
  {
  }

  /** A sale is costed exactly when some receipt is usable for it, and then at a cost no receipt undercuts or exceeds all of. */
  lemma AverageIsFair(rs: seq<Receipt>, sale: Sale, byPeriod: bool, month: Month, low: real, high: real)
    requires forall r | r in rs :: UsableReceipt(r)
    requires forall r | r in rs && Usable(r, sale, byPeriod, month) :: low <= r.unitCost <= high
    ensures var stock := Stock(rs, sale, byPeriod, month);
            var row := AverageRow(stock, sale);
            && row.quantity == sale.quantity
            && (row.unitCost.Some? <==> exists r | r in rs :: Usable(r, sale, byPeriod, month))
            && (row.unitCost.Some? ==> low <= row.unitCost.value <= high && row.unitCost.value * Quantity(stock) == Value(stock))
  {
    hide Value, Quantity, Stock, Usable;
    var stock := Stock(rs, sale, byPeriod, month);
    StockIsUsable(rs, sale, byPeriod, month);
    PositiveQuantity(stock);
    ValueBetween(stock, low, high);
    if stock != [] {
      assert stock[0] in stock;
      Divided(low, Value(stock), high, Quantity(stock));
    }
  }

  lemma {:induction false} StockSums(rs: seq<Receipt>, sale: Sale, byPeriod: bool, month: Month, units: Receipt -> real, worth: Receipt -> real)
    requires forall r: Receipt :: units(r) == if Usable(r, sale, byPeriod, month) then r.quantity else 0.0
    requires forall r: Receipt :: worth(r) == if Usable(r, sale, byPeriod, month) then r.quantity * r.unitCost else 0.0
    ensures var stock := Stock(rs, sale, byPeriod, month); Quantity(stock) == SumOf(rs, units) && Value(stock) == SumOf(rs, worth)
  {
    hide SumOf, Usable, Quantity, Value;
    if rs == [] {
      NoStock();
      NoSum(units);
      NoSum(worth);
    } else {
      var front, last := rs[..|rs| - 1], rs[|rs| - 1];
      StockSums(front, sale, byPeriod, month, units, worth);
      assert rs == front + [last];
      SumOfLast(front, last, units);
      SumOfLast(front, last, worth);
      var stock := Stock(front, sale, byPeriod, month);
      if Usable(last, sale, byPeriod, month) {
        assert (stock + [last])[..|stock|] == stock;
        LastInStock(stock + [last]);
      } else {
        assert Stock(rs, sale, byPeriod, month) == stock;
      }
    }
  }

  lemma NoSum(amount: Receipt -> real)
    ensures SumOf([], amount) == 0.0
  {
  }

  /** The last usable receipt is the last of the stock. */
  lemma {:induction false} LastUsable(rs: seq<Receipt>, sale: Sale, byPeriod: bool, month: Month, i: nat)
    requires i < |rs| && Usable(rs[i], sale, byPeriod, month)
    requires forall k | i < k < |rs| :: !Usable(rs[k], sale, byPeriod, month)
    ensures var stock := Stock(rs, sale, byPeriod, month); stock != [] && stock[|stock| - 1] == rs[i]
  {
    hide Usable;
    if i < |rs| - 1 {
      LastUsable(rs[..|rs| - 1], sale, byPeriod, month, i);
    }
  }

  lemma SameProduct(a: real, b: real, c: real)
    requires b == c
    ensures a * b == a * c
  {
  }

  /**
   A sale's row: the worth of what is usable spread over its units, times the units sold, under the last usable receipt;
   or no batch and no cost when nothing is.
   */
  lemma AverageLaw(rs: seq<Receipt>, sale: Sale, byPeriod: bool, month: Month, units: Receipt -> real, worth: Receipt -> real, i: nat)
    requires forall r | r in rs :: r.quantity > 0.0
    requires forall r: Receipt :: units(r) ==
               if r.receivedAt <= sale.soldAt && (byPeriod ==> month(r.receivedAt) == month(sale.soldAt)) then r.quantity else 0.0
    requires forall r: Receipt :: worth(r) ==
               if r.receivedAt <= sale.soldAt && (byPeriod ==> month(r.receivedAt) == month(sale.soldAt)) then r.quantity * r.unitCost else 0.0
    ensures var row := AverageRow(Stock(rs, sale, byPeriod, month), sale);
            && row.saleRef == sale.ref && row.quantity == sale.quantity && row.sequence == 0
            && if SumOf(rs, units) <= 0.0 then row.batch == None && row.unitCost == None && row.cost == None
               else row.unitCost.Some? && row.unitCost.value * SumOf(rs, units) == SumOf(rs, worth)
                    && row.cost.Some? && row.cost.value == sale.quantity * row.unitCost.value
                    && (i < |rs| && units(rs[i]) != 0.0 && (forall k | i < k < |rs| :: units(rs[k]) == 0.0) ==> row.batch == Some(rs[i].id))
  {
    hide SumOf, Quantity, Value, Stock;
    StockSums(rs, sale, byPeriod, month, units, worth);
    var stock := Stock(rs, sale, byPeriod, month);
    if i < |rs| && units(rs[i]) != 0.0 && forall k | i < k < |rs| :: units(rs[k]) == 0.0 {
      assert forall k | i < k < |rs| :: rs[k] in rs;
      LastUsable(rs, sale, byPeriod, month, i);
    }
    if Quantity(stock) > 0.0 {
      SameProduct(sale.quantity, AverageCost(stock), AverageRow(stock, sale).unitCost.value);
      Divided(Value(stock) / Quantity(stock), Value(stock), Value(stock) / Quantity(stock), Quantity(stock));
    }
  }

  /** The calculation is complete exactly when every sale has stock behind it. */
  lemma {:induction false} CompleteWhenStocked(rs: seq<Receipt>, sales: seq<Sale>, byPeriod: bool, month: Month)
    ensures AverageReason(rs, sales, byPeriod, month).None? <==>
            forall s | s in sales :: Quantity(Stock(rs, s, byPeriod, month)) > 0.0
  {
    hide Quantity, Stock;
    if sales != [] {
      var front, last := sales[..|sales| - 1], sales[|sales| - 1];
      CompleteWhenStocked(rs, front, byPeriod, month);
      assert sales == front + [last];
      assert forall s :: s in sales <==> s in front || s == last;
      assert last in sales;
      if Quantity(Stock(rs, last, byPeriod, month)) > 0.0 {
        assert AverageReason(rs, sales, byPeriod, month) == AverageReason(rs, front, byPeriod, month);
        assert (forall s | s in sales :: Quantity(Stock(rs, s, byPeriod, month)) > 0.0) <==>
               (forall s | s in front :: Quantity(Stock(rs, s, byPeriod, month)) > 0.0);
      } else {
        assert AverageReason(rs, sales, byPeriod, month).Some?;
      }
    }
  }
}
