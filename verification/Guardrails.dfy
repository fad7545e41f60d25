/**
 The guardrails on one proposal: data quality, pauses and daily limits, clamping, bounds
 and rounding. Money is real; instants are seconds and dates are day numbers.
 */
module Guardrails {
  import opened Wrappers
  import opened Numbers

  datatype Guard =
    | KillSwitch | StaleData | UnsettledData | ThinData | Cooldown | DailyChangeLimit | DailyBudgetLimit | BlastRadius

  datatype Config = Config(
    automationEnabled: bool, dryRun: bool, maxChangePct: real, cooldownDays: int, maxChangesPerDay: int,
    maxBudgetIncrease: real, blastRadiusPct: real, minBid: real, maxBid: real, maxDailyBudget: real,
    maxDataAgeHours: int, settlementLagDays: int)

  datatype Proposal = Proposal(kind: string, before: Option<real>, after: Option<real>, clicks: int, impressions: int)

  datatype Context = Context(
    now: int, dataThrough: int, dataLoadedAt: int, changesToday: int, budgetToday: real,
    evaluated: int, matched: int, lastAppliedAt: Option<int>, minClicks: int, minImpressions: int)

  datatype Note = DiagnosticOnly | WouldDo | ClampedToLimit | MovedToBound | BlockedBecause(guard: Guard)

  datatype Verdict = Verdict(allowed: bool, value: Option<real>, clamped: bool, notes: seq<Note>, blockedBy: Option<Guard>)

  const DAY := 86400
  const HOUR := 3600

  predicate Diagnostic(kind: string) {
    kind == "flag"
  }

  predicate Priced(kind: string) {
    kind == "set_bid" || kind == "set_budget"
  }

  // --------------------------------------------------------------- numbers

  /** The nearest whole number, and of two equally near ones the even one. */
  function RoundHalfEven(x: real): int {
    var f := x.Floor;
    var rest := x - f as real;
    if rest < 0.5 || (rest == 0.5 && f % 2 == 0) then f else f + 1
  }

  /** Rounded to cents. */
  function Cents(x: real): real {
    RoundHalfEven(x * 100.0) as real / 100.0
  }

  function Low(before: real, cfg: Config): real {
    before - before * cfg.maxChangePct
  }

  function High(before: real, cfg: Config): real {
    before + before * cfg.maxChangePct
  }

  function ClampChange(before: real, after: real, cfg: Config): (real, bool) {
    if before <= 0.0 then (after, false)
    else if after > High(before, cfg) then (High(before, cfg), true)
    else if after < Low(before, cfg) then (Low(before, cfg), true)
    else (after, false)
  }

  function ApplyBounds(kind: string, value: real, cfg: Config): (real, bool) {
    if kind == "set_bid" && value < cfg.minBid then (cfg.minBid, true)
    else if kind == "set_bid" && value > cfg.maxBid then (cfg.maxBid, true)
    else if kind == "set_budget" && value > cfg.maxDailyBudget then (cfg.maxDailyBudget, true)
    else (value, false)
  }

  /** The price that would be sent, and whether a limit moved it. */
  function Price(kind: string, before: Option<real>, after: real, cfg: Config): (real, bool) {
    var (value, clamped) := if before.Some? then ClampChange(before.value, after, cfg) else (after, false);
    var (bounded, moved) := ApplyBounds(kind, value, cfg);
    (Cents(bounded), clamped || moved)
  }

  // -------------------------------------------------------------- the rules

  predicate Stale(cfg: Config, ctx: Context) {
    ctx.now - ctx.dataLoadedAt > cfg.maxDataAgeHours * HOUR
  }

  predicate Unsettled(cfg: Config, ctx: Context) {
    ctx.dataThrough > ctx.now / DAY - cfg.settlementLagDays
  }

  predicate Thin(p: Proposal, ctx: Context) {
    p.clicks < ctx.minClicks && p.impressions < ctx.minImpressions
  }

  predicate Cooling(cfg: Config, ctx: Context) {
    ctx.lastAppliedAt.Some? && (ctx.now - ctx.lastAppliedAt.value) / DAY < cfg.cooldownDays
  }

  predicate TooWide(cfg: Config, ctx: Context) {
    ctx.evaluated >= 20 && ctx.matched as real / ctx.evaluated as real > cfg.blastRadiusPct
  }

  predicate OverChanges(cfg: Config, ctx: Context) {
    ctx.changesToday >= cfg.maxChangesPerDay
  }

  /** The budget a proposal would add, if its baseline is known. */
  function Increase(kind: string, before: Option<real>, value: Option<real>): real {
    if kind == "set_budget" && before.Some? && value.Some? then Max(value.value - before.value, 0.0) else 0.0
  }

  predicate OverBudget(kind: string, before: Option<real>, value: Option<real>, cfg: Config, ctx: Context) {
    Increase(kind, before, value) > 0.0 && ctx.budgetToday + Increase(kind, before, value) > cfg.maxBudgetIncrease
  }

  function DataGuard(p: Proposal, cfg: Config, ctx: Context): Option<Guard> {
    if Stale(cfg, ctx) then Some(StaleData)
    else if Unsettled(cfg, ctx) then Some(UnsettledData)
    else if Thin(p, ctx) then Some(ThinData)
    else None
  }

  /** The first guard against a change, before its price is looked at. */
  function ChangeGuard(p: Proposal, cfg: Config, ctx: Context): Option<Guard> {
    if !cfg.automationEnabled then Some(KillSwitch)
    else if DataGuard(p, cfg, ctx).Some? then DataGuard(p, cfg, ctx)
    else if Cooling(cfg, ctx) then Some(Cooldown)
    else if TooWide(cfg, ctx) then Some(BlastRadius)
    else if OverChanges(cfg, ctx) then Some(DailyChangeLimit)
    else None
  }

  function Sent(p: Proposal, cfg: Config): (Option<real>, bool) {
    if Priced(p.kind) && p.after.Some? then
      var (value, moved) := Price(p.kind, p.before, p.after.value, cfg);
      (Some(value), moved)
    else (p.after, false)
  }

  /** What the check decides, apart from its notes. */
  ghost predicate Decided(v: Verdict, p: Proposal, cfg: Config, ctx: Context) {
    if Diagnostic(p.kind) then
      && v.blockedBy == DataGuard(p, cfg, ctx) && v.allowed == v.blockedBy.None? && !v.clamped
      && (v.allowed ==> v.value == None)
    else if ChangeGuard(p, cfg, ctx).Some? then
      !v.allowed && v.blockedBy == ChangeGuard(p, cfg, ctx) && v.value == p.after && !v.clamped
    else
      && (v.value, v.clamped) == Sent(p, cfg)
      && v.blockedBy == (if OverBudget(p.kind, p.before, v.value, cfg, ctx) then Some(DailyBudgetLimit) else None)
      && v.allowed == v.blockedBy.None?
  }

  /** A decision under construction. */
  class Decision {
    var allowed: bool
    var value: Option<real>
    var clamped: bool
    var notes: seq<Note>
    var blockedBy: Option<Guard>

    function Result(): Verdict
      reads this
    {
      Verdict(allowed, value, clamped, notes, blockedBy)
    }

    constructor (value: Option<real>)
      ensures Result() == Verdict(true, value, false, [], None)
    {
      this.allowed, this.value, this.clamped, this.notes, this.blockedBy := true, value, false, [], None;
    }

    method Block(guard: Guard)
      modifies this
      ensures Result() == old(Result()).(allowed := false, blockedBy := Some(guard), notes := old(notes) + [BlockedBecause(guard)])
    {
      allowed, blockedBy, notes := false, Some(guard), notes + [BlockedBecause(guard)];
    }

    method DataQuality(p: Proposal, cfg: Config, ctx: Context) returns (blocked: bool)
      modifies this
      ensures blocked == DataGuard(p, cfg, ctx).Some?
      ensures if blocked then
                Result() == old(Result()).(allowed := false, blockedBy := DataGuard(p, cfg, ctx),
                                           notes := old(notes) + [BlockedBecause(DataGuard(p, cfg, ctx).value)])
              else Result() == old(Result())
    {
      if ctx.now - ctx.dataLoadedAt > cfg.maxDataAgeHours * HOUR {
        Block(StaleData);
        return true;
      }
      var latestSettled := ctx.now / DAY - cfg.settlementLagDays;
      if ctx.dataThrough > latestSettled {
        Block(UnsettledData);
        return true;
      }
      if p.clicks < ctx.minClicks && p.impressions < ctx.minImpressions {
        Block(ThinData);
        return true;
      }
      return false;
    }

    /** Clamps, bounds and rounds, in that order. */
    method SetPrice(kind: string, before: Option<real>, after: real, cfg: Config)
      modifies this
      ensures value == Some(Price(kind, before, after, cfg).0)
      ensures clamped == (old(clamped) || Price(kind, before, after, cfg).1)
      ensures allowed == old(allowed) && blockedBy == old(blockedBy) && old(notes) <= notes
      ensures !Price(kind, before, after, cfg).1 ==> notes == old(notes)
    {
      hide Cents, ApplyBounds, ClampChange;
      var price := after;
      if before.Some? {
        var (limited, moved) := ClampChange(before.value, price, cfg);
        price := limited;
        if moved {
          clamped := true;
          notes := notes + [ClampedToLimit];
        }
      }
      var (bounded, moved) := ApplyBounds(kind, price, cfg);
      if moved {
        clamped := true;
        notes := notes + [MovedToBound];
      }
      value := Some(Cents(bounded));
    }
  }

  /** Every guardrail in order, the cheapest and most absolute first. */
  method Check(p: Proposal, cfg: Config, ctx: Context) returns (v: Verdict)
    ensures Decided(v, p, cfg, ctx)
    ensures v.blockedBy.Some? ==> v.notes != [] && v.notes[|v.notes| - 1] == BlockedBecause(v.blockedBy.value)
  {
    hide Price, Stale, Unsettled, Thin, DataGuard;
    var d := new Decision(p.after);
    if Diagnostic(p.kind) {
      var blocked := d.DataQuality(p, cfg, ctx);
      if blocked {
        return d.Result();
      }
      d.value := None;
      d.notes := d.notes + [DiagnosticOnly];
      return d.Result();
    }
    if !cfg.automationEnabled {
      d.Block(KillSwitch);
      return d.Result();
    }
    if cfg.dryRun {
      d.notes := d.notes + [WouldDo];
    }
    var blocked := d.DataQuality(p, cfg, ctx);
    if blocked {
      return d.Result();
    }
    if ctx.lastAppliedAt.Some? {
      var days := (ctx.now - ctx.lastAppliedAt.value) / DAY;
      if days < cfg.cooldownDays {
        d.Block(Cooldown);
        return d.Result();
      }
    }
    if ctx.evaluated >= 20 {
      var ratio := ctx.matched as real / ctx.evaluated as real;
      if ratio > cfg.blastRadiusPct {
        d.Block(BlastRadius);
        return d.Result();
      }
    }
    if ctx.changesToday >= cfg.maxChangesPerDay {
      d.Block(DailyChangeLimit);
      return d.Result();
    }
    if Priced(p.kind) && p.after.Some? {
      d.SetPrice(p.kind, p.before, p.after.value, cfg);
      if p.kind == "set_budget" && p.before.Some? {
        var delta := d.value.value - p.before.value;
        if delta > 0.0 && ctx.budgetToday + delta > cfg.maxBudgetIncrease {
          d.Block(DailyBudgetLimit);
          return d.Result();
        }
      }
    }
    return d.Result();
  }

  // -------------------------------------------------------------- rounding

  lemma RoundMonotone(x: real, y: real)
    requires x <= y
    ensures RoundHalfEven(x) <= RoundHalfEven(y)
  {
  }

  lemma RoundNearest(x: real)
    ensures -0.5 <= RoundHalfEven(x) as real - x <= 0.5
  {
  }

  lemma CentsMonotone(x: real, y: real)
    requires x <= y
    ensures Cents(x) <= Cents(y)
  {
    RoundMonotone(x * 100.0, y * 100.0);
  }

  lemma CentsTwice(x: real)
    ensures Cents(Cents(x)) == Cents(x)
  {
  }

  // ---------------------------------------------------- the price of a change

  /** The highest lower limit and the lowest upper limit on a price. */
  function LowerEdge(kind: string, before: Option<real>, cfg: Config): Option<real> {
    if before.Some? && before.value > 0.0 then
      Some(if kind == "set_bid" then Max(Low(before.value, cfg), cfg.minBid) else Low(before.value, cfg))
    else if kind == "set_bid" then Some(cfg.minBid)
    else None
  }

  function UpperEdge(kind: string, before: Option<real>, cfg: Config): real
    requires Priced(kind)
  {
    var bound := if kind == "set_bid" then cfg.maxBid else cfg.maxDailyBudget;
    if before.Some? && before.value > 0.0 then Min(High(before.value, cfg), bound) else bound
  }

  predicate InRange(kind: string, before: Option<real>, value: real, cfg: Config)
    requires Priced(kind)
  {
    (LowerEdge(kind, before, cfg).Some? ==> LowerEdge(kind, before, cfg).value <= value) && value <= UpperEdge(kind, before, cfg)
  }

  /** A price is left alone exactly when it is within every limit, and then only rounded. */
  lemma MovedExactlyOutside(kind: string, before: Option<real>, after: real, cfg: Config)
    requires Priced(kind)
    ensures Price(kind, before, after, cfg).1 <==> !InRange(kind, before, after, cfg)
    ensures InRange(kind, before, after, cfg) ==> Price(kind, before, after, cfg).0 == Cents(after)
  {
    hide Cents;
  }

  /** Whatever is asked for, the price before rounding is within every limit, if any price is. */
  lemma PriceInRange(kind: string, before: Option<real>, after: real, cfg: Config) returns (bounded: real)
    requires Priced(kind)
    requires LowerEdge(kind, before, cfg).Some? ==> LowerEdge(kind, before, cfg).value <= UpperEdge(kind, before, cfg)
    ensures InRange(kind, before, bounded, cfg) && Price(kind, before, after, cfg).0 == Cents(bounded)
  {
    hide Cents;
    var limited := if before.Some? then ClampChange(before.value, after, cfg).0 else after;
    bounded := ApplyBounds(kind, limited, cfg).0;
  }

  /** The price of every price is itself. */
  ghost predicate Settles(kind: string, before: Option<real>, cfg: Config) {
    forall after :: var value := Price(kind, before, after, cfg).0; Price(kind, before, value, cfg) == (value, false)
  }

  /** Rounding does not leave the range: the limits overlap and do not round outwards. */
  predicate RoundsInward(kind: string, before: Option<real>, cfg: Config)
    requires Priced(kind)
  {
    && Cents(UpperEdge(kind, before, cfg)) <= UpperEdge(kind, before, cfg)
    && (LowerEdge(kind, before, cfg).Some? ==>
          && LowerEdge(kind, before, cfg).value <= UpperEdge(kind, before, cfg)
          && LowerEdge(kind, before, cfg).value <= Cents(LowerEdge(kind, before, cfg).value))
  }

  /** Checking an allowed price again leaves it alone, whatever was asked, exactly when rounding cannot leave the range. */
  lemma SettlesExactlyWhen(kind: string, before: Option<real>, cfg: Config)
    requires Priced(kind)
    ensures Settles(kind, before, cfg) <==> RoundsInward(kind, before, cfg)
  {
    hide Cents, Price, LowerEdge, UpperEdge;
    if RoundsInward(kind, before, cfg) {
      forall after
        ensures var value := Price(kind, before, after, cfg).0; Price(kind, before, value, cfg) == (value, false)
      {
        PriceSettles(kind, before, after, cfg);
      }
    }
    if Settles(kind, before, cfg) {
      var low, high := LowerEdge(kind, before, cfg), UpperEdge(kind, before, cfg);
      EdgeSettles(kind, before, high, cfg);
      if low.Some? {
        EdgeSettles(kind, before, low.value, cfg);
      }
    }
  }

  lemma PriceSettles(kind: string, before: Option<real>, after: real, cfg: Config)
    requires Priced(kind) && RoundsInward(kind, before, cfg)
    ensures var value := Price(kind, before, after, cfg).0; Price(kind, before, value, cfg) == (value, false)
  {
    hide Cents, Price, LowerEdge, UpperEdge;
    var bounded := PriceInRange(kind, before, after, cfg);
    var value := Price(kind, before, after, cfg).0;
    CentsMonotone(bounded, UpperEdge(kind, before, cfg));
    if LowerEdge(kind, before, cfg).Some? {
      CentsMonotone(LowerEdge(kind, before, cfg).value, bounded);
    }
    CentsTwice(bounded);
    MovedExactlyOutside(kind, before, value, cfg);
  }

  lemma EdgeSettles(kind: string, before: Option<real>, edge: real, cfg: Config)
    requires Priced(kind) && Settles(kind, before, cfg)
    ensures LowerEdge(kind, before, cfg).Some? ==> LowerEdge(kind, before, cfg).value <= UpperEdge(kind, before, cfg)
    ensures InRange(kind, before, edge, cfg) ==> InRange(kind, before, Cents(edge), cfg)
  {
    hide Cents, Price, LowerEdge, UpperEdge;
    var value := Price(kind, before, edge, cfg).0;
    assert Price(kind, before, value, cfg) == (value, false);
    MovedExactlyOutside(kind, before, value, cfg);
    MovedExactlyOutside(kind, before, edge, cfg);
  }

  /** Whole-cent limits that overlap are enough. */
  lemma WholeCentLimitsSettle(kind: string, before: Option<real>, cfg: Config)
    requires Priced(kind)
    requires Cents(UpperEdge(kind, before, cfg)) == UpperEdge(kind, before, cfg)
    requires var low := LowerEdge(kind, before, cfg);
             low.Some? ==> Cents(low.value) == low.value && low.value <= UpperEdge(kind, before, cfg)
    ensures Settles(kind, before, cfg)
  {
    SettlesExactlyWhen(kind, before, cfg);
  }

  /** Three cents, at most a quarter more: the limit rounds up to four cents, and four cents is then too much. */
  lemma SmallBidDoesNotSettle(cfg: Config)
    requires cfg.maxChangePct == 0.25 && cfg.minBid == 0.02 && cfg.maxBid == 5.0
    ensures Price("set_bid", Some(0.03), 1.0, cfg) == (0.04, true)
    ensures Price("set_bid", Some(0.03), 0.04, cfg) == (0.04, true)
  {
  }

  // ------------------------------------------------------------- the verdict

  /** An allowed price, proposed again in the same circumstances, is allowed as it is. */
  lemma AllowedAgain(v: Verdict, w: Verdict, p: Proposal, cfg: Config, ctx: Context)
    requires Priced(p.kind) && p.after.Some? && RoundsInward(p.kind, p.before, cfg)
    requires Decided(v, p, cfg, ctx) && v.allowed
    requires Decided(w, p.(after := v.value), cfg, ctx)
    ensures w.allowed && !w.clamped && w.value == v.value
  {
    hide Price, RoundsInward, Stale, Unsettled, Cooling, TooWide, OverBudget;
    PriceSettles(p.kind, p.before, p.after.value, cfg);
  }
}
