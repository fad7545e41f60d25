/**
 The guardrails again, immediately before approved actions go live, over a whole batch
 whose changes and budget add up. An approved target is never altered, only refused.
 */
module ApplyGuardrails {
  import opened Wrappers
  import opened Numbers
  import opened Guardrails

  /** What was recorded with the evaluation; absent when it is missing, unreadable or not fresh. */
  datatype Evidence = Evidence(
    dataThrough: int, dataLoadedAt: int, evaluated: int, matched: int, minClicks: int, minImpressions: int,
    clicks: int, impressions: int, lastAppliedAt: Option<int>)

  datatype Item = Item(kind: string, before: Option<real>, after: Option<real>, evidence: Option<Evidence>)

  /** The tenant's changes and budget increases already applied today. */
  datatype Today = Today(changes: int, budget: real)

  datatype Refusal = EvidenceMissing | ImpossibleCounts | Guarded(guard: Guard) | WouldChange

  function ProposalOf(item: Item): Proposal
    requires item.evidence.Some?
  {
    Proposal(item.kind, item.before, item.after, item.evidence.value.clicks, item.evidence.value.impressions)
  }

  function ContextOf(item: Item, now: int, today: Today, changes: int, budget: real): Context
    requires item.evidence.Some?
  {
    var e := item.evidence.value;
    Context(now, e.dataThrough, e.dataLoadedAt, today.changes + changes, today.budget + budget,
            e.evaluated, e.matched, e.lastAppliedAt, e.minClicks, e.minImpressions)
  }

  predicate PossibleCounts(e: Evidence) {
    0 <= e.evaluated && 0 <= e.matched <= e.evaluated && 0 <= e.minClicks && 0 <= e.minImpressions
  }

  /** A target the limits would send as it is. */
  predicate Unaltered(item: Item, cfg: Config) {
    if Diagnostic(item.kind) then item.after.None?
    else Priced(item.kind) && item.after.Some? ==>
           InRange(item.kind, item.before, item.after.value, cfg) && Cents(item.after.value) == item.after.value
  }

  /** No guard speaks against the item after so many other changes and so much other budget. */
  predicate Clear(item: Item, cfg: Config, ctx: Context)
    requires item.evidence.Some?
  {
    if Diagnostic(item.kind) then DataGuard(ProposalOf(item), cfg, ctx).None?
    else ChangeGuard(ProposalOf(item), cfg, ctx).None? && !OverBudget(item.kind, item.before, item.after, cfg, ctx)
  }

  predicate Admissible(item: Item, cfg: Config, now: int, today: Today, changes: int, budget: real) {
    && item.evidence.Some? && PossibleCounts(item.evidence.value)
    && Unaltered(item, cfg)
    && Clear(item, cfg, ContextOf(item, now, today, changes, budget))
  }

  /** Admitted exactly when the evidence is sound, no guard blocks, and no limit would change the target. */
  method Validate(item: Item, cfg: Config, now: int, today: Today, changes: int, budget: real) returns (r: Result<real, Refusal>)
    ensures r.Ok? <==> Admissible(item, cfg, now, today, changes, budget)
    ensures r.Ok? ==> r.value == Increase(item.kind, item.before, item.after)
  {
    hide Decided, Clear, Unaltered, Increase;
    if item.evidence.None? {
      return Err(EvidenceMissing);
    }
    var e := item.evidence.value;
    if e.evaluated < 0 || e.matched < 0 || e.matched > e.evaluated || e.minClicks < 0 || e.minImpressions < 0 {
      return Err(ImpossibleCounts);
    }
    var ctx := ContextOf(item, now, today, changes, budget);
    var decision := Check(ProposalOf(item), cfg, ctx);
    Verdicts(item, cfg, ctx, decision);
    if !decision.allowed {
      return Err(Guarded(BlockedBy(decision)));
    }
    if decision.clamped || decision.value != item.after {
      return Err(WouldChange);
    }
    return Ok(Added(item));
  }

  function BlockedBy(v: Verdict): Guard {
    if v.blockedBy.Some? then v.blockedBy.value else KillSwitch
  }

  function Added(item: Item): (r: real)
    ensures r == Increase(item.kind, item.before, item.after)
  {
    if item.kind == "set_budget" && item.before.Some? && item.after.Some? then Max(item.after.value - item.before.value, 0.0) else 0.0
  }

  /** The decision lets the target through untouched exactly when it is unaltered and clear. */
  lemma Verdicts(item: Item, cfg: Config, ctx: Context, v: Verdict)
    requires item.evidence.Some? && Decided(v, ProposalOf(item), cfg, ctx)
    ensures v.allowed && !v.clamped && v.value == item.after <==> Unaltered(item, cfg) && Clear(item, cfg, ctx)
  {
  }

  // -------------------------------------------------------------- the batch

  function TotalIncrease(items: seq<Item>): real {
    if items == [] then 0.0
    else
      var last := items[|items| - 1];
      TotalIncrease(items[..|items| - 1]) + Increase(last.kind, last.before, last.after)
  }

  function Changes(items: seq<Item>): nat {
    if items == [] then 0 else Changes(items[..|items| - 1]) + if Diagnostic(items[|items| - 1].kind) then 0 else 1
  }

  /** The admitted items in order: each is judged after the ones admitted before it. */
  function Eligible(items: seq<Item>, cfg: Config, now: int, today: Today): seq<Item> {
    if items == [] then []
    else
      var before := Eligible(items[..|items| - 1], cfg, now, today);
      var last := items[|items| - 1];
      if Admissible(last, cfg, now, today, |before|, TotalIncrease(before)) then before + [last] else before
  }

  method ValidateBatch(items: seq<Item>, cfg: Config, now: int, today: Today) returns (eligible: seq<Item>, blocked: seq<(Item, Refusal)>)
    ensures eligible == Eligible(items, cfg, now, today)
    ensures |eligible| + |blocked| == |items|
    ensures forall b | b in blocked :: b.0 in items
  {
    hide Admissible, Increase;
    eligible, blocked := [], [];
    var changes, increase := 0, 0.0;
    for i := 0 to |items|
      invariant eligible == Eligible(items[..i], cfg, now, today)
      invariant changes == |eligible| && increase == TotalIncrease(eligible)
      invariant |eligible| + |blocked| == i && forall b | b in blocked :: b.0 in items
    {
      assert items[..i + 1][..i] == items[..i];
      var r := Validate(items[i], cfg, now, today, changes, increase);
      if r.Err? {
        blocked := blocked + [(items[i], r.error)];
      } else {
        assert (eligible + [items[i]])[..|eligible|] == eligible;
        eligible := eligible + [items[i]];
        changes, increase := changes + 1, increase + r.value;
      }
    }
    assert items[..|items|] == items;
  }

  lemma AddedToTotals(items: seq<Item>, item: Item)
    ensures TotalIncrease(items + [item]) == TotalIncrease(items) + Increase(item.kind, item.before, item.after)
    ensures Changes(items + [item]) == Changes(items) + if Diagnostic(item.kind) then 0 else 1
  {
  }

  /** Live changes never take the day past its limit. */
  lemma {:induction false} DailyChangesKept(items: seq<Item>, cfg: Config, now: int, today: Today)
    ensures var eligible := Eligible(items, cfg, now, today);
            Changes(eligible) > 0 ==> today.changes + Changes(eligible) <= cfg.maxChangesPerDay
    ensures Changes(Eligible(items, cfg, now, today)) <= |Eligible(items, cfg, now, today)|
  {
    hide Admissible, Changes, TotalIncrease, Diagnostic;
    if items == [] {
      NothingAdmitted();
    } else {
      var before, last := Eligible(items[..|items| - 1], cfg, now, today), items[|items| - 1];
      DailyChangesKept(items[..|items| - 1], cfg, now, today);
      AddedToTotals(before, last);
      if Admissible(last, cfg, now, today, |before|, TotalIncrease(before)) {
        WithinToday(last, cfg, now, today, |before|, TotalIncrease(before));
      }
    }
  }

  lemma NothingAdmitted()
    ensures Changes([]) == 0 && TotalIncrease([]) == 0.0
  {
  }

  /** What an admissible item may add to the day. */
  lemma WithinToday(item: Item, cfg: Config, now: int, today: Today, changes: int, budget: real)
    requires Admissible(item, cfg, now, today, changes, budget)
    ensures !Diagnostic(item.kind) ==> today.changes + changes < cfg.maxChangesPerDay
    ensures var more := Increase(item.kind, item.before, item.after);
            more >= 0.0 && (more > 0.0 ==> today.budget + budget + more <= cfg.maxBudgetIncrease)
  {
    hide Unaltered, DataGuard, Cooling, TooWide, PossibleCounts;
  }

  /** Budget increases over known baselines never take the day past its cap. */
  lemma {:induction false} DailyBudgetKept(items: seq<Item>, cfg: Config, now: int, today: Today)
    ensures var total := TotalIncrease(Eligible(items, cfg, now, today));
            total >= 0.0 && (total > 0.0 ==> today.budget + total <= cfg.maxBudgetIncrease)
  {
    hide Admissible, Changes, TotalIncrease, Increase;
    if items == [] {
      NothingAdmitted();
    } else {
      var before, last := Eligible(items[..|items| - 1], cfg, now, today), items[|items| - 1];
      DailyBudgetKept(items[..|items| - 1], cfg, now, today);
      AddedToTotals(before, last);
      if Admissible(last, cfg, now, today, |before|, TotalIncrease(before)) {
        WithinToday(last, cfg, now, today, |before|, TotalIncrease(before));
      }
    }
  }

  /** What goes live: a whole-cent price inside the absolute bounds and, over a positive baseline, within the allowed change. */
  lemma {:induction false} LivePricesAreSound(items: seq<Item>, cfg: Config, now: int, today: Today, item: Item)
    requires item in Eligible(items, cfg, now, today) && Priced(item.kind) && item.after.Some?
    ensures item in items
    ensures var value := item.after.value;
            && Cents(value) == value
            && (item.kind == "set_bid" ==> cfg.minBid <= value <= cfg.maxBid)
            && (item.kind == "set_budget" ==> value <= cfg.maxDailyBudget)
            && (item.before.Some? && item.before.value > 0.0 ==>
                  -(item.before.value * cfg.maxChangePct) <= value - item.before.value <= item.before.value * cfg.maxChangePct)
  {
    hide Admissible, TotalIncrease, Cents;
    if items != [] {
      var front, last := items[..|items| - 1], items[|items| - 1];
      var before := Eligible(front, cfg, now, today);
      if item in before {
        LivePricesAreSound(front, cfg, now, today, item);
      } else {
        UnalteredPrice(last, cfg, now, today, |before|, TotalIncrease(before));
      }
    }
  }

  lemma UnalteredPrice(item: Item, cfg: Config, now: int, today: Today, changes: int, budget: real)
    requires Admissible(item, cfg, now, today, changes, budget) && Priced(item.kind) && item.after.Some?
    ensures InRange(item.kind, item.before, item.after.value, cfg) && Cents(item.after.value) == item.after.value
  {
    hide Clear, Cents, PossibleCounts, InRange;
  }
}
