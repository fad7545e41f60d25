/**
 Daily ingestion of one dataset: which days a run asks for, what it stores, and how far the
 watermark says the data is complete. Days are numbers; the two pipelines differ in how far back
 they may ask.
 */
module Watermark {
  import opened Wrappers
  import opened Numbers

  /** How far back a report can be had, and how many recent days are asked for again. */
  datatype Settings = Settings(backfillDays: int, reingestDays: int)

  const ADS_DAILY := Settings(95, 14)
  const SALES_TRAFFIC := Settings(730, 14)

  /** A report row; one without a usable entity id raises. */
  datatype RawRow = RawRow(date: Option<int>, entity: Option<string>, record: string)

  /** The rows of a day's report, or an exception on the way to them. */
  type Outcome = Result<seq<RawRow>, string>

  type Raw = map<(int, string), string>

  datatype State = State(watermark: Option<int>, raw: Raw, covered: set<int>)

  datatype Counts = Counts(requested: nat, succeeded: nat, failed: nat, loaded: nat)

  // --------------------------------------------------------------- planning

  function Start(last: Option<int>, today: int, s: Settings): int {
    var oldest := today - s.backfillDays;
    if last.None? then oldest
    else Larger(Smaller(last.value + 1, today - 1 - (s.reingestDays - 1)), oldest)
  }

  /** From the start up to yesterday, every day. */
  function PlanDates(last: Option<int>, today: int, s: Settings): seq<int> {
    var newest := today - 1;
    if last.Some? && last.value >= newest then []
    else
      var start := Start(last, today, s);
      if start > newest then [] else seq(newest - start + 1, i => start + i)
  }

  lemma PlanRange(last: Option<int>, today: int, s: Settings, day: int)
    ensures day in PlanDates(last, today, s) <==> (last.Some? ==> last.value < today - 1) && Start(last, today, s) <= day < today
  {
    var plan := PlanDates(last, today, s);
    var start := Start(last, today, s);
    if plan != [] && start <= day < today {
      assert plan[day - start] == day;
    }
  }

  /** Exactly which days a plan asks for: none when yesterday is there, and else all after the watermark and the last few again, as far
      back as reports go. */
  lemma PlanHolds(last: Option<int>, today: int, s: Settings, day: int)
    ensures day in PlanDates(last, today, s) <==>
            && (last.Some? ==> last.value < today - 1)
            && today - s.backfillDays <= day < today
            && (last.Some? ==> day > last.value || day >= today - s.reingestDays)
  {
    PlanRange(last, today, s, day);
  }

  /** The two pipelines: 95 and 730 days back at first, and always the last fourteen again. */
  lemma PipelinePlans(last: Option<int>, today: int, day: int)
    requires last.Some? ==> last.value < today - 1
    ensures day in PlanDates(last, today, ADS_DAILY) <==> today - 95 <= day < today && (last.Some? ==> day > last.value || day >= today - 14)
    ensures day in PlanDates(last, today, SALES_TRAFFIC) <==> today - 730 <= day < today && (last.Some? ==> day > last.value || day >= today - 14)
  {
    PlanHolds(last, today, ADS_DAILY, day);
    PlanHolds(last, today, SALES_TRAFFIC, day);
  }

  /** A plan leaves no day after the watermark out exactly when the oldest one can still be had. */
  lemma PlanClosesGapExactlyWhen(watermark: int, today: int, s: Settings)
    requires s.reingestDays >= 1 && watermark < today - 1
    ensures (forall day | watermark < day < today :: day in PlanDates(Some(watermark), today, s)) <==> today - s.backfillDays <= watermark + 1
  {
    forall day
      ensures day in PlanDates(Some(watermark), today, s) <==> Start(Some(watermark), today, s) <= day < today
    {
      PlanRange(Some(watermark), today, s, day);
    }
    assert (watermark + 1) in PlanDates(Some(watermark), today, s) <==> Start(Some(watermark), today, s) <= watermark + 1;
  }

  // ---------------------------------------------------------------- storing

  function Key(row: RawRow, day: int): (int, string)
    requires row.entity.Some?
  {
    (if row.date.Some? then row.date.value else day, row.entity.value)
  }

  /** Rows are upserted one by one until one cannot be used. */
  function Stored(raw: Raw, day: int, rows: seq<RawRow>): Raw
    decreases |rows|
  {
    if rows == [] || rows[0].entity.None? then raw
    else Stored(raw[Key(rows[0], day) := rows[0].record], day, rows[1..])
  }

  predicate Usable(rows: seq<RawRow>) {
    forall r | r in rows :: r.entity.Some?
  }

  predicate Good(outcome: Outcome) {
    outcome.Ok? && Usable(outcome.value)
  }

  function StoredDays(raw: Raw, days: seq<int>, outcomes: int -> Outcome): Raw {
    if days == [] then raw
    else
      var day := days[|days| - 1];
      var before := StoredDays(raw, days[..|days| - 1], outcomes);
      if outcomes(day).Ok? then Stored(before, day, outcomes(day).value) else before
  }

  lemma {:induction false} StoredOver(raw: Raw, day: int, rows: seq<RawRow>)
    ensures Stored(raw, day, rows) == raw + Stored(map[], day, rows)
    decreases |rows|
  {
    if rows != [] && rows[0].entity.Some? {
      var key, record := Key(rows[0], day), rows[0].record;
      var none: Raw := map[];
      StoredOver(raw[key := record], day, rows[1..]);
      StoredOver(none[key := record], day, rows[1..]);
      var rest := Stored(map[], day, rows[1..]);
      assert raw[key := record] + rest == raw + (none[key := record] + rest);
    }
  }

  /** Ingesting a report again changes nothing. */
  lemma IngestingAgain(raw: Raw, day: int, rows: seq<RawRow>)
    ensures Stored(Stored(raw, day, rows), day, rows) == Stored(raw, day, rows)
  {
    StoredOver(raw, day, rows);
    StoredOver(Stored(raw, day, rows), day, rows);
  }

  // -------------------------------------------------------------- the runs

  /** A run finished without a failure; a dry one always does. */
  predicate Complete(dates: seq<int>, outcomes: int -> Outcome, dry: bool) {
    dry || forall d | d in dates :: Good(outcomes(d))
  }

  function Raised(watermark: Option<int>, dates: seq<int>): Option<int> {
    if dates == [] then watermark
    else Some(if watermark.Some? then Larger(watermark.value, dates[|dates| - 1]) else dates[|dates| - 1])
  }

  function Next(state: State, today: int, outcomes: int -> Outcome, dry: bool, s: Settings): State {
    var dates := PlanDates(state.watermark, today, s);
    State(
      if Complete(dates, outcomes, dry) then Raised(state.watermark, dates) else state.watermark,
      if dry then state.raw else StoredDays(state.raw, dates, outcomes),
      if dry then state.covered else state.covered + set d | d in dates && Good(outcomes(d)))
  }

  class Pipeline {
    const settings: Settings
    var watermark: Option<int>
    var raw: Raw
    /** Days whose report a live run asked for and stored. */
    ghost var covered: set<int>

    ghost function Current(): State
      reads this
    {
      State(watermark, raw, covered)
    }

    constructor (settings: Settings)
      ensures this.settings == settings && Current() == State(None, map[], {})
    {
      this.settings, watermark, raw, covered := settings, None, map[], {};
    }

    method UpsertRows(day: int, rows: seq<RawRow>) returns (loaded: nat, ok: bool)
      modifies this`raw
      ensures raw == Stored(old(raw), day, rows)
      ensures ok == Usable(rows) && (ok ==> loaded == |rows|)
    {
      loaded := 0;
      while loaded < |rows|
        invariant loaded <= |rows| && Usable(rows[..loaded])
        invariant Stored(old(raw), day, rows) == Stored(raw, day, rows[loaded..])
      {
        var row := rows[loaded];
        assert rows[loaded..][0] == row && rows[loaded..][1..] == rows[loaded + 1..];
        if row.entity.None? {
          assert row in rows;
          return loaded, false;
        }
        raw := raw[Key(row, day) := row.record];
        assert rows[..loaded + 1] == rows[..loaded] + [row];
        loaded := loaded + 1;
      }
      assert rows[..|rows|] == rows;
      return loaded, true;
    }

    method RunRequests(dates: seq<int>, outcomes: int -> Outcome, dry: bool) returns (c: Counts)
      modifies this`raw, this`covered
      ensures c.requested == |dates| == c.succeeded + c.failed
      ensures c.failed == 0 <==> Complete(dates, outcomes, dry)
      ensures raw == if dry then old(raw) else StoredDays(old(raw), dates, outcomes)
      ensures covered == if dry then old(covered) else old(covered) + set d | d in dates && Good(outcomes(d))
    {
      hide StoredDays, Good;
      if dry {
        return Counts(|dates|, |dates|, 0, 0);
      }
      var succeeded, failed, total := 0, 0, 0;
      NoDays(raw, outcomes);
      for i := 0 to |dates|
        invariant succeeded + failed == i
        invariant failed == 0 <==> forall d | d in dates[..i] :: Good(outcomes(d))
        invariant raw == StoredDays(old(raw), dates[..i], outcomes)
        invariant covered == old(covered) + set d | d in dates[..i] && Good(outcomes(d))
      {
        var day := dates[i];
        OneMoreDay(old(raw), dates, i, outcomes);
        assert dates[..i + 1] == dates[..i] + [day];
        var loaded, good := Request(day, outcomes(day));
        if good {
          succeeded, total := succeeded + 1, total + loaded;
          covered := covered + {day};
        } else {
          failed := failed + 1;
        }
      }
      assert dates[..|dates|] == dates;
      return Counts(|dates|, succeeded, failed, total);
    }

    /** One report: an exception counts as a failure, but rows upserted before it stay. */
    method Request(day: int, outcome: Outcome) returns (loaded: nat, good: bool)
      modifies this`raw
      ensures raw == if outcome.Ok? then Stored(old(raw), day, outcome.value) else old(raw)
      ensures good == Good(outcome)
    {
      if outcome.Err? {
        return 0, false;
      }
      loaded, good := UpsertRows(day, outcome.value);
    }

    method UpdateWatermark(completed: seq<int>)
      requires forall d | d in completed :: d <= completed[|completed| - 1]
      modifies this`watermark
      ensures watermark == Raised(old(watermark), completed)
    {
      if completed == [] {
        return;
      }
      var newest := completed[|completed| - 1];
      watermark := Some(if watermark.Some? then Larger(watermark.value, newest) else newest);
    }

    method Run(today: int, outcomes: int -> Outcome, dry: bool) returns (c: Counts)
      modifies this
      ensures Current() == Next(old(Current()), today, outcomes, dry, settings)
      ensures c.succeeded + c.failed == c.requested == |PlanDates(old(watermark), today, settings)|
    {
      hide StoredDays, Complete;
      var dates := PlanDates(watermark, today, settings);
      c := RunRequests(dates, outcomes, dry);
      if c.failed == 0 {
        PlanAscends(old(watermark), today, settings);
        UpdateWatermark(dates);
      }
    }
  }

  lemma NoDays(raw: Raw, outcomes: int -> Outcome)
    ensures StoredDays(raw, [], outcomes) == raw
  {
  }

  lemma OneMoreDay(raw: Raw, dates: seq<int>, i: nat, outcomes: int -> Outcome)
    requires i < |dates|
    ensures var before := StoredDays(raw, dates[..i], outcomes);
            StoredDays(raw, dates[..i + 1], outcomes) == if outcomes(dates[i]).Ok? then Stored(before, dates[i], outcomes(dates[i]).value) else before
  {
    hide Stored;
    assert dates[..i + 1][..i] == dates[..i];
  }

  /** With reports of yesterday to be had, a full run makes yesterday the watermark. */
  lemma FullRunRaises(watermark: Option<int>, today: int, s: Settings)
    requires Sound(s) && (watermark.Some? ==> watermark.value <= today - 1)
    ensures Raised(watermark, PlanDates(watermark, today, s)) == Some(today - 1)
  {
  }

  lemma PlanAscends(last: Option<int>, today: int, s: Settings)
    ensures var plan := PlanDates(last, today, s);
            (plan != [] ==> plan[|plan| - 1] == today - 1) && forall d | d in plan :: d <= plan[|plan| - 1]
  {
  }

  // ----------------------------------------------------------- many live runs

  datatype Day = Day(today: int, outcomes: int -> Outcome)

  const NEW := State(None, map[], {})

  function After(days: seq<Day>, s: Settings): State {
    if days == [] then NEW
    else
      var last := days[|days| - 1];
      Next(After(days[..|days| - 1], s), last.today, last.outcomes, false, s)
  }

  ghost predicate NonDecreasing(days: seq<Day>) {
    forall i, j | 0 <= i < j < |days| :: days[i].today <= days[j].today
  }

  /** The last run succeeded with everything it asked for. */
  predicate LastIsFull(days: seq<Day>, s: Settings)
    requires days != []
  {
    var last := days[|days| - 1];
    Complete(PlanDates(After(days[..|days| - 1], s).watermark, last.today, s), last.outcomes, false)
  }

  /** The day of the latest full run. */
  function LatestFull(days: seq<Day>, s: Settings): Option<int> {
    if days == [] then None
    else if LastIsFull(days, s) then Some(days[|days| - 1].today)
    else LatestFull(days[..|days| - 1], s)
  }

  function FirstFull(days: seq<Day>, s: Settings): Option<int> {
    if days == [] then None
    else
      var before := FirstFull(days[..|days| - 1], s);
      if before.Some? then before else if LastIsFull(days, s) then Some(days[|days| - 1].today) else None
  }

  predicate Sound(s: Settings) {
    s.backfillDays >= 1 && s.reingestDays >= 1
  }

  lemma {:induction false} LatestFullIsEarlier(days: seq<Day>, s: Settings, today: int)
    requires forall d | d in days :: d.today <= today
    ensures LatestFull(days, s).Some? ==> LatestFull(days, s).value <= today
  {
    hide LastIsFull;
    if days != [] {
      assert days[|days| - 1] in days;
      LatestFullIsEarlier(days[..|days| - 1], s, today);
    }
  }

  /** The watermark is the day before the latest full run, so it never passes yesterday. */
  lemma {:induction false} WatermarkIsLatestFull(days: seq<Day>, s: Settings)
    requires NonDecreasing(days) && Sound(s)
    ensures After(days, s).watermark == if LatestFull(days, s).Some? then Some(LatestFull(days, s).value - 1) else None
    ensures days != [] && After(days, s).watermark.Some? ==> After(days, s).watermark.value <= days[|days| - 1].today - 1
  {
    hide StoredDays, Complete, PlanDates, Raised;
    if days != [] {
      var front, last := days[..|days| - 1], days[|days| - 1];
      WatermarkIsLatestFull(front, s);
      forall d | d in front
        ensures d.today <= last.today
      {
        var i :| 0 <= i < |front| && front[i] == d;
        assert days[i].today <= days[|days| - 1].today;
      }
      LatestFullIsEarlier(front, s, last.today);
      if After(front, s).watermark.Some? {
        FullRunRaises(After(front, s).watermark, last.today, s);
      } else {
        FullRunRaises(None, last.today, s);
      }
    }
  }

  /** The watermark never falls. */
  lemma {:induction false} WatermarkNeverFalls(days: seq<Day>, s: Settings, i: nat)
    requires i <= |days| && After(days[..i], s).watermark.Some?
    ensures After(days, s).watermark.Some? && After(days[..i], s).watermark.value <= After(days, s).watermark.value
    decreases |days|
  {
    hide StoredDays, Complete, PlanDates;
    if i < |days| {
      assert days[..|days| - 1][..i] == days[..i];
      WatermarkNeverFalls(days[..|days| - 1], s, i);
    } else {
      assert days[..i] == days;
    }
  }

  /** Full runs are never further apart than reports can be had for. */
  ghost predicate CloseEnough(days: seq<Day>, s: Settings) {
    forall i | 0 <= i < |days| :: NotTooLate(days, i, s)
  }

  predicate NotTooLate(days: seq<Day>, i: nat, s: Settings)
    requires i < |days|
  {
    LastIsFull(days[..i + 1], s) && LatestFull(days[..i], s).Some? ==> days[i].today - LatestFull(days[..i], s).value <= s.backfillDays
  }

  lemma CloseEnoughBefore(days: seq<Day>, s: Settings)
    requires days != [] && CloseEnough(days, s)
    ensures CloseEnough(days[..|days| - 1], s) && NotTooLate(days, |days| - 1, s) && days[..|days|] == days
  {
    hide LastIsFull, LatestFull;
    var front := days[..|days| - 1];
    forall i | 0 <= i < |front|
      ensures NotTooLate(front, i, s)
    {
      assert NotTooLate(days, i, s);
      assert front[..i + 1] == days[..i + 1] && front[..i] == days[..i];
    }
  }

  /** From the first day the first full run asked for up to the watermark, every day was asked for and stored. */
  lemma {:induction false} NoGap(days: seq<Day>, s: Settings, day: int)
    requires NonDecreasing(days) && Sound(s) && CloseEnough(days, s) && FirstFull(days, s).Some?
    requires After(days, s).watermark.Some? ==> FirstFull(days, s).value - s.backfillDays <= day <= After(days, s).watermark.value
    ensures After(days, s).watermark.Some? && day in After(days, s).covered
  {
    hide StoredDays, PlanDates, LastIsFull, NotTooLate, CloseEnough;
    var front, last := days[..|days| - 1], days[|days| - 1];
    CloseEnoughBefore(days, s);
    WatermarkIsLatestFull(days, s);
    WatermarkIsLatestFull(front, s);
    FullTogether(days, s);
    FullTogether(front, s);
    if LastIsFull(days, s) {
      Planned(front, last, s, day);
      LastFullCovers(days, s, day);
      NotTooLateMeans(days, s);
      if FirstFull(front, s).Some? && day <= After(front, s).watermark.value {
        NoGap(front, s, day);
      }
    } else {
      NoGap(front, s, day);
    }
  }

  lemma NotTooLateMeans(days: seq<Day>, s: Settings)
    requires days != [] && NotTooLate(days, |days| - 1, s) && days[..|days|] == days
    ensures var front := days[..|days| - 1];
            LastIsFull(days, s) && LatestFull(front, s).Some? ==> days[|days| - 1].today - LatestFull(front, s).value <= s.backfillDays
  {
    hide LastIsFull, LatestFull;
  }

  lemma {:induction false} FullTogether(days: seq<Day>, s: Settings)
    ensures FirstFull(days, s).Some? <==> LatestFull(days, s).Some?
  {
    hide LastIsFull;
    if days != [] {
      FullTogether(days[..|days| - 1], s);
    }
  }

  lemma Planned(front: seq<Day>, last: Day, s: Settings, day: int)
    ensures var w := After(front, s).watermark;
            day in PlanDates(w, last.today, s) <==> (w.Some? ==> w.value < last.today - 1) && Start(w, last.today, s) <= day < last.today
  {
    hide PlanDates, After;
    PlanRange(After(front, s).watermark, last.today, s, day);
  }

  /** A full run covers what it planned; what was covered stays covered. */
  lemma LastFullCovers(days: seq<Day>, s: Settings, day: int)
    requires days != []
    ensures var front, last := days[..|days| - 1], days[|days| - 1];
            && (LastIsFull(days, s) && day in PlanDates(After(front, s).watermark, last.today, s) ==> day in After(days, s).covered)
            && (day in After(front, s).covered ==> day in After(days, s).covered)
  {
    hide PlanDates, StoredDays, Good;
  }

  // ---------------------------------------------------------------- dry runs

  /** Every day from the first one up to the watermark was asked for and stored. */
  ghost predicate CoveredFrom(state: State, first: int) {
    state.watermark.Some? ==> forall day | first <= day <= state.watermark.value :: day in state.covered
  }

  /** A missing watermark, or one before yesterday. */
  predicate Stale(watermark: Option<int>, today: int) {
    watermark.Some? ==> watermark.value < today - 1
  }

  lemma DryRunRaises(state: State, today: int, s: Settings, outcomes: int -> Outcome)
    requires Sound(s)
    ensures Next(state, today, outcomes, true, s) == state.(watermark := if Stale(state.watermark, today) then Some(today - 1) else state.watermark)
  {
    if Stale(state.watermark, today) {
      FullRunRaises(state.watermark, today, s);
    }
  }

  /**
   A dry run raises the watermark although nothing was asked for. What a live run covers afterwards, of the days before the
   dry one, is what starts with the reports read again before the raised watermark.
   */
  lemma DryRunLeavesGap(state: State, today: int, later: int, s: Settings, dry: int -> Outcome, outcomes: int -> Outcome, day: int)
    requires Sound(s) && Stale(state.watermark, today) && today <= later && day < today
    ensures day in Next(Next(state, today, dry, true, s), later, outcomes, false, s).covered
            <==> day in state.covered || (today < later && Start(Some(today - 1), later, s) <= day && Good(outcomes(day)))
  {
    hide Good, StoredDays, Complete, PlanDates, Raised, Start;
    DryRunRaises(state, today, s, dry);
    PlanRange(Some(today - 1), later, s, day);
  }

  /** A dry run leaves every day up to the watermark covered exactly when those it passes over already were. */
  lemma DryRunKeepsCoverExactlyWhen(state: State, today: int, s: Settings, outcomes: int -> Outcome, first: int)
    requires Sound(s) && CoveredFrom(state, first)
    ensures CoveredFrom(Next(state, today, outcomes, true, s), first)
            <==> forall day | first <= day < today && (state.watermark.Some? ==> state.watermark.value < day) :: day in state.covered
  {
    hide Complete, PlanDates, Raised;
    DryRunRaises(state, today, s, outcomes);
  }

  datatype Session = Session(day: Day, dry: bool)

  function AfterSessions(state: State, sessions: seq<Session>, s: Settings): State {
    if sessions == [] then state
    else
      var last := sessions[|sessions| - 1];
      Next(AfterSessions(state, sessions[..|sessions| - 1], s), last.day.today, last.day.outcomes, last.dry, s)
  }

  lemma StartIsMonotone(w: int, later: int, today: int, after: int, s: Settings)
    requires w <= later && today <= after
    ensures Start(Some(w), today, s) <= Start(Some(later), after, s)
  {
  }

  /** No later run, live or dry, asks for a day that was left out. */
  lemma {:induction false} GapStays(state: State, sessions: seq<Session>, s: Settings, today: int, day: int)
    requires state.watermark.Some? && (forall run | run in sessions :: today <= run.day.today)
    requires day !in state.covered && day < Start(state.watermark, today, s)
    ensures var after := AfterSessions(state, sessions, s);
            after.watermark.Some? && state.watermark.value <= after.watermark.value && day !in after.covered
  {
    hide Good, StoredDays, Complete, PlanDates, Start;
    if sessions != [] {
      var front, last := sessions[..|sessions| - 1], sessions[|sessions| - 1];
      assert last in sessions;
      GapStays(state, front, s, today, day);
      var before := AfterSessions(state, front, s);
      StartIsMonotone(state.watermark.value, before.watermark.value, today, last.day.today, s);
      PlanRange(before.watermark, last.day.today, s, day);
    }
  }
}
