/** What the guardrails ask for and what price they send, in plain numbers. */
module GuardLaws {
  import opened Wrappers
  import opened Guardrails

  /** Loaded at most so many hours ago, settled for so many days, and enough clicks or impressions. */
  predicate SoundData(p: Proposal, cfg: Config, ctx: Context) {
    && ctx.now - ctx.dataLoadedAt <= cfg.maxDataAgeHours * 3600
    && ctx.dataThrough <= ctx.now / 86400 - cfg.settlementLagDays
    && (p.clicks >= ctx.minClicks || p.impressions >= ctx.minImpressions)
  }

  lemma SoundDataIs(p: Proposal, cfg: Config, ctx: Context)
    ensures SoundData(p, cfg, ctx) <==> DataGuard(p, cfg, ctx).None?
  {
  }

  /** The value that is sent when nothing blocks: a price within its limits, anything else as it is. */
  function Target(p: Proposal, cfg: Config): Option<real> {
    if p.kind in {"set_bid", "set_budget"} && p.after.Some? then Some(Price(p.kind, p.before, p.after.value, cfg).0) else p.after
  }

  /** A change is allowed exactly when nothing speaks against it, in whatever order it is asked. */
  lemma AllowedExactlyWhen(v: Verdict, p: Proposal, cfg: Config, ctx: Context)
    requires Decided(v, p, cfg, ctx) && p.kind != "flag"
    ensures v.allowed <==>
            && cfg.automationEnabled
            && SoundData(p, cfg, ctx)
            && (ctx.lastAppliedAt.Some? ==> (ctx.now - ctx.lastAppliedAt.value) / 86400 >= cfg.cooldownDays)
            && (ctx.evaluated >= 20 ==> ctx.matched as real / ctx.evaluated as real <= cfg.blastRadiusPct)
            && ctx.changesToday < cfg.maxChangesPerDay
            && (p.kind == "set_budget" && p.before.Some? && Target(p, cfg).Some? && Target(p, cfg).value > p.before.value ==>
                  ctx.budgetToday + (Target(p, cfg).value - p.before.value) <= cfg.maxBudgetIncrease)
    ensures v.allowed ==> v.value == Target(p, cfg)
  {
    hide Price, DataGuard;
    SoundDataIs(p, cfg, ctx);
  }

  /** A finding only needs sound data, and carries no value. */
  lemma FindingAllowedExactlyWhen(v: Verdict, p: Proposal, cfg: Config, ctx: Context)
    requires Decided(v, p, cfg, ctx) && p.kind == "flag"
    ensures v.allowed <==> SoundData(p, cfg, ctx)
    ensures v.allowed ==> v.value == None
  {
    hide DataGuard;
    SoundDataIs(p, cfg, ctx);
  }

  // -------------------------------------------------------------- the price

  /** `y` is `x` moved to the nearer end when it is beyond it; the upper end is looked at first when `upper`. */
  predicate Moved(low: Option<real>, high: Option<real>, upper: bool, x: real, y: real) {
    if low.Some? && x < low.value && (!upper || high.None? || x <= high.value) then y == low.value
    else if high.Some? && x > high.value then y == high.value
    else y == x
  }

  /** A whole number of cents next to the value, the even one of two equally near. */
  ghost predicate RoundedToCent(x: real, y: real) {
    exists cents: int :: CentsOf(x, y, cents)
  }

  predicate CentsOf(x: real, y: real, cents: int) {
    Nearest(x * 100.0, cents) && y == cents as real / 100.0
  }

  predicate Nearest(x: real, n: int) {
    var rest := x - n as real;
    -0.5 <= rest <= 0.5 && (rest == 0.5 || rest == -0.5 ==> n % 2 == 0)
  }

  /** The price sent: first within the allowed change of a positive baseline, then within the absolute limits, then to the cent. */
  lemma PriceLaw(kind: string, before: Option<real>, after: real, cfg: Config) returns (limited: real, bounded: real)
    requires kind in {"set_bid", "set_budget"}
    ensures if before.Some? && before.value > 0.0 then
              Moved(Some(before.value * (1.0 - cfg.maxChangePct)), Some(before.value * (1.0 + cfg.maxChangePct)), true, after, limited)
            else limited == after
    ensures Moved(if kind == "set_bid" then Some(cfg.minBid) else None, Some(if kind == "set_bid" then cfg.maxBid else cfg.maxDailyBudget),
                  false, limited, bounded)
    ensures RoundedToCent(bounded, Price(kind, before, after, cfg).0)
    ensures !Price(kind, before, after, cfg).1 <==> limited == after && bounded == after && Unmoved(kind, before, after, cfg)
  {
    hide Cents, RoundedToCent, ClampChange, ApplyBounds, Moved, Unmoved;
    limited := if before.Some? then ClampChange(before.value, after, cfg).0 else after;
    bounded := ApplyBounds(kind, limited, cfg).0;
    CentsRounds(bounded);
    if before.Some? {
      ChangeLimited(before.value, after, cfg);
    }
    ValueBounded(kind, limited, cfg);
    LeftAlone(kind, before, after, cfg);
  }

  lemma ChangeLimited(before: real, after: real, cfg: Config)
    ensures var limited := ClampChange(before, after, cfg).0;
            if before > 0.0 then Moved(Some(before * (1.0 - cfg.maxChangePct)), Some(before * (1.0 + cfg.maxChangePct)), true, after, limited)
            else limited == after
  {
    Edges(before, cfg.maxChangePct);
  }

  lemma ValueBounded(kind: string, value: real, cfg: Config)
    requires kind in {"set_bid", "set_budget"}
    ensures Moved(if kind == "set_bid" then Some(cfg.minBid) else None, Some(if kind == "set_bid" then cfg.maxBid else cfg.maxDailyBudget),
                  false, value, ApplyBounds(kind, value, cfg).0)
  {
  }

  lemma LeftAlone(kind: string, before: Option<real>, after: real, cfg: Config)
    requires kind in {"set_bid", "set_budget"}
    ensures var limited := if before.Some? then ClampChange(before.value, after, cfg).0 else after;
            !Price(kind, before, after, cfg).1 <==> limited == after && ApplyBounds(kind, limited, cfg).0 == after && Unmoved(kind, before, after, cfg)
  {
    hide Cents;
    if before.Some? {
      Edges(before.value, cfg.maxChangePct);
    }
  }

  lemma Edges(before: real, pct: real)
    ensures before * (1.0 - pct) == before - before * pct && before * (1.0 + pct) == before + before * pct
  {
  }

  /** Within every limit already. */
  predicate Unmoved(kind: string, before: Option<real>, after: real, cfg: Config) {
    && (before.Some? && before.value > 0.0 ==> before.value * (1.0 - cfg.maxChangePct) <= after <= before.value * (1.0 + cfg.maxChangePct))
    && (kind == "set_bid" ==> cfg.minBid <= after <= cfg.maxBid)
    && (kind == "set_budget" ==> after <= cfg.maxDailyBudget)
  }

  lemma CentsRounds(x: real)
    ensures RoundedToCent(x, Cents(x))
  {
    hide RoundHalfEven, Nearest;
    RoundsToNearest(x * 100.0);
    assert CentsOf(x, Cents(x), RoundHalfEven(x * 100.0));
  }

  lemma RoundsToNearest(x: real)
    ensures Nearest(x, RoundHalfEven(x))
  {
  }
}
