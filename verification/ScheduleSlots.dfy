/**
 When a report schedule is next due: daily, weekly or monthly at a time of day in a zone
 with a fixed offset. Instants are microseconds; local day 0 is the first of January of year 1.
 */
module ScheduleSlots {
  import opened Wrappers
  import opened Calendar
  import opened Numbers

  const SECOND := 1_000_000
  const DAY := 86_400 * SECOND

  /** A time zone that could not be found has no offset. */
  datatype Spec = Spec(cadence: string, runTime: nat, zone: Option<int>, weekday: Option<int>, monthDay: Option<int>)

  datatype Instant = Naive | Aware(utc: int)

  datatype Error = NotAware | UnknownCadence | UnknownZone | WeekdayMissing | MonthDayMissing | BeforeYearOne

  /** The time columns hold times of day. */
  predicate ValidTime(spec: Spec) {
    spec.runTime < DAY
  }

  function Trouble(spec: Spec, after: Instant): Option<Error> {
    if after.Naive? then Some(NotAware)
    else if spec.cadence !in {"daily", "weekly", "monthly"} then Some(UnknownCadence)
    else if spec.zone.None? then Some(UnknownZone)
    else if after.utc + spec.zone.value < 0 then Some(BeforeYearOne)
    else if spec.cadence == "weekly" && (spec.weekday.None? || !(0 <= spec.weekday.value <= 6)) then Some(WeekdayMissing)
    else if spec.cadence == "monthly" && (spec.monthDay.None? || !(1 <= spec.monthDay.value <= 28)) then Some(MonthDayMissing)
    else None
  }

  // ------------------------------------------------------------- the slots

  predicate DailySlot(spec: Spec, local: int) {
    local % 86_400_000_000 == spec.runTime
  }

  /** Day 0 was a Monday. */
  predicate WeeklySlot(spec: Spec, local: int)
    requires spec.weekday.Some?
  {
    local % 86_400_000_000 == spec.runTime && (local / 86_400_000_000) % 7 == spec.weekday.value
  }

  /** On a date, at the hour, minute and second of the schedule and no microseconds. */
  predicate OnDate(spec: Spec, local: int, year: int, month: int)
    requires spec.monthDay.Some?
  {
    && local / 86_400_000_000 == DateNumber(year, month, spec.monthDay.value)
    && (local % 86_400_000_000) / 1_000_000 == spec.runTime / 1_000_000 && local % 1_000_000 == 0
  }

  ghost predicate MonthlySlot(spec: Spec, local: int)
    requires spec.monthDay.Some?
  {
    exists year: int, month: int | year >= 1 && 1 <= month <= 12 :: OnDate(spec, local, year, month)
  }

  /** The instants a schedule runs at, counted from year 1. */
  ghost predicate Slot(spec: Spec, t: int) {
    && spec.zone.Some?
    && var local := t + spec.zone.value;
    && local >= 0
    && match spec.cadence
       case "daily" => DailySlot(spec, local)
       case "weekly" => spec.weekday.Some? && WeeklySlot(spec, local)
       case "monthly" => spec.monthDay.Some? && MonthlySlot(spec, local)
       case _ => false
  }

  /** The least slot strictly after an instant. */
  ghost predicate LeastAfter(spec: Spec, after: int, t: int) {
    Slot(spec, t) && t > after && forall u :: Slot(spec, u) && u > after ==> t <= u
  }

  // ------------------------------------------------------------ computing it

  /** Monthly schedules run at whole seconds. */
  function MonthlyTime(spec: Spec): int {
    spec.runTime - spec.runTime % SECOND
  }

  function InMonth(spec: Spec, k: nat): int
    requires spec.monthDay.Some?
  {
    (MonthStart(k) + spec.monthDay.value - 1) * DAY + MonthlyTime(spec)
  }

  function Following(spec: Spec, after: int): int
    requires Trouble(spec, Aware(after)).None?
  {
    var local := after + spec.zone.value;
    var today := local / DAY;
    (if spec.cadence == "daily" then
       var candidate := today * DAY + spec.runTime;
       if candidate <= local then candidate + DAY else candidate
     else if spec.cadence == "weekly" then
       var candidate := (today + (spec.weekday.value - today % 7) % 7) * DAY + spec.runTime;
       if candidate <= local then candidate + 7 * DAY else candidate
     else
       var k := MonthContaining(today);
       if InMonth(spec, k) <= local then InMonth(spec, k + 1) else InMonth(spec, k))
    - spec.zone.value
  }

  /** This month's run, or next month's, which may be next year's. */
  method MonthlyRun(spec: Spec, local: int) returns (candidate: int)
    requires local >= 0 && spec.monthDay.Some? && 1 <= spec.monthDay.value <= 28
    ensures var k := MonthContaining(local / DAY);
            candidate == if InMonth(spec, k) <= local then InMonth(spec, k + 1) else InMonth(spec, k)
  {
    hide MonthContaining, MonthStart, MonthlyTime, DaysInMonth, YearOf, MonthOf, MonthNumber, InMonth;
    var k := MonthContaining(local / DAY);
    MonthAfter(k);
    var year, month := YearOf(k), MonthOf(k);
    candidate := At(spec, year, month, spec.monthDay.value);
    AtMonth(spec, year, month, k);
    if candidate <= local {
      month := month + 1;
      if month == 13 {
        year, month := year + 1, 1;
      }
      AtMonth(spec, year, month, k + 1);
      candidate := At(spec, year, month, Smaller(spec.monthDay.value, DaysInMonth(year, month)));
    }
  }

  function At(spec: Spec, year: int, month: int, day: int): int
    requires year >= 1 && 1 <= month <= 12
  {
    (MonthStart(MonthNumber(year, month)) + day - 1) * DAY + MonthlyTime(spec)
  }

  lemma AtMonth(spec: Spec, year: int, month: int, k: nat)
    requires year >= 1 && 1 <= month <= 12 && MonthNumber(year, month) == k
    requires spec.monthDay.Some? && spec.monthDay.value <= 28
    ensures At(spec, year, month, spec.monthDay.value) == InMonth(spec, k)
    ensures Smaller(spec.monthDay.value, DaysInMonth(year, month)) == spec.monthDay.value
  {
    hide MonthStart, MonthlyTime, MonthNumber, DaysInMonth;
  }

  lemma MonthAfter(k: nat)
    ensures YearOf(k) >= 1 && MonthNumber(YearOf(k), MonthOf(k)) == k
    ensures if MonthOf(k) == 12 then MonthNumber(YearOf(k) + 1, 1) == k + 1 else MonthNumber(YearOf(k), MonthOf(k) + 1) == k + 1
  {
  }

  method NextRun(spec: Spec, after: Instant) returns (r: Result<int, Error>)
    ensures r == if Trouble(spec, after).Some? then Err(Trouble(spec, after).value) else Ok(Following(spec, after.utc))
  {
    hide InMonth, MonthContaining;
    if after.Naive? {
      return Err(NotAware);
    }
    if spec.cadence !in {"daily", "weekly", "monthly"} {
      return Err(UnknownCadence);
    }
    if spec.zone.None? {
      return Err(UnknownZone);
    }
    var local := after.utc + spec.zone.value;
    if local < 0 {
      return Err(BeforeYearOne);
    }
    var today := local / DAY;
    var candidate;
    if spec.cadence == "daily" {
      candidate := today * DAY + spec.runTime;
      if candidate <= local {
        candidate := candidate + DAY;
      }
    } else if spec.cadence == "weekly" {
      if spec.weekday.None? || !(0 <= spec.weekday.value <= 6) {
        return Err(WeekdayMissing);
      }
      var days := (spec.weekday.value - today % 7) % 7;
      candidate := (today + days) * DAY + spec.runTime;
      if candidate <= local {
        candidate := candidate + 7 * DAY;
      }
    } else {
      if spec.monthDay.None? || !(1 <= spec.monthDay.value <= 28) {
        return Err(MonthDayMissing);
      }
      candidate := MonthlyRun(spec, local);
    }
    return Ok(candidate - spec.zone.value);
  }

  // ------------------------------------------------------- it is the least

  lemma SplitDay(x: int) returns (day: int, time: int)
    ensures day == x / DAY && time == x % DAY && x == day * DAY + time && 0 <= time < DAY
  {
    day, time := x / DAY, x % DAY;
  }

  lemma JoinDay(day: int, time: int)
    requires 0 <= time < DAY
    ensures (day * DAY + time) / DAY == day && (day * DAY + time) % DAY == time
  {
  }

  lemma DailyLeast(spec: Spec, local: int, candidate: int)
    requires ValidTime(spec)
    requires var first := local / DAY * DAY + spec.runTime; candidate == if first <= local then first + DAY else first
    ensures DailySlot(spec, candidate) && candidate > local
    ensures forall u | u > local && DailySlot(spec, u) :: candidate <= u
  {
  }

  lemma WeeklyLeast(spec: Spec, local: int, candidate: int)
    requires ValidTime(spec) && spec.weekday.Some? && 0 <= spec.weekday.value <= 6
    requires var today := local / DAY;
             var first := (today + (spec.weekday.value - today % 7) % 7) * DAY + spec.runTime;
             candidate == if first <= local then first + 7 * DAY else first
    ensures WeeklySlot(spec, candidate) && candidate > local
    ensures forall u | u > local && WeeklySlot(spec, u) :: candidate <= u
  {
    var today, time := SplitDay(local);
    var day := today + (spec.weekday.value - today % 7) % 7;
    JoinDay(day, spec.runTime);
    JoinDay(day + 7, spec.runTime);
    assert (day + 7) * DAY + spec.runTime == day * DAY + spec.runTime + 7 * DAY;
    NextWeekday(today, spec.weekday.value);
    forall u | u > local && WeeklySlot(spec, u)
      ensures candidate <= u
    {
      var d, at := SplitDay(u);
      assert d >= today;
      SameWeekday(day, d, today);
    }
  }

  lemma NextWeekday(today: int, weekday: int)
    requires 0 <= weekday <= 6
    ensures var day := today + (weekday - today % 7) % 7; day % 7 == weekday && (day + 7) % 7 == weekday && today <= day < today + 7
  {
  }

  lemma SameWeekday(a: int, b: int, from: int)
    requires a % 7 == b % 7 && from <= a < from + 7 && from <= b
    ensures b == a || b >= a + 7
  {
  }

  lemma TruncatedTime(spec: Spec)
    requires ValidTime(spec)
    ensures 0 <= MonthlyTime(spec) < DAY
  {
  }

  lemma SlotInMonth(spec: Spec, k: nat)
    requires ValidTime(spec) && spec.monthDay.Some? && 1 <= spec.monthDay.value <= 28
    ensures MonthStart(k) * DAY <= InMonth(spec, k) < MonthStart(k + 1) * DAY
  {
    hide MonthStart, MonthlyTime;
    TruncatedTime(spec);
    MonthIsLong(k);
    InDays(MonthStart(k), spec.monthDay.value - 1, MonthlyTime(spec));
    assert (MonthStart(k) + 28) * DAY <= MonthStart(k + 1) * DAY;
  }

  lemma MonthIsLong(k: nat)
    ensures MonthStart(k) + 28 <= MonthStart(k + 1)
  {
  }

  lemma InDays(start: int, days: int, time: int)
    requires 0 <= days < 28 && 0 <= time < DAY
    ensures start * DAY <= (start + days) * DAY + time < (start + 28) * DAY
  {
  }

  /** The slot of a month is its date at the time of day. */
  lemma InMonthOnDate(spec: Spec, k: nat, local: int)
    requires ValidTime(spec) && spec.monthDay.Some?
    ensures local == InMonth(spec, k) <==> OnDate(spec, local, YearOf(k), MonthOf(k))
  {
    hide MonthStart, DateNumber, YearOf, MonthOf, MonthNumber;
    MonthAfter(k);
    DateOfMonth(k, spec.monthDay.value);
    var day := DateNumber(YearOf(k), MonthOf(k), spec.monthDay.value);
    SplitTime(local, day, spec.runTime);
  }

  lemma DateOfMonth(k: nat, day: int)
    ensures DateNumber(YearOf(k), MonthOf(k), day) == MonthStart(k) + day - 1
  {
    hide MonthStart;
    MonthAfter(k);
    MonthStartsAt(YearOf(k), MonthOf(k));
  }

  lemma SplitTime(local: int, day: int, time: nat)
    requires time < 86_400_000_000
    ensures local == day * 86_400_000_000 + (time - time % 1_000_000)
            <==> local / 86_400_000_000 == day && (local % 86_400_000_000) / 1_000_000 == time / 1_000_000 && local % 1_000_000 == 0
  {
    var d, rest := local / 86_400_000_000, local % 86_400_000_000;
    assert local == d * 86_400_000_000 + rest;
    assert local % 1_000_000 == rest % 1_000_000;
  }

  lemma MonthlySlots(spec: Spec, local: int)
    requires ValidTime(spec) && spec.monthDay.Some?
    ensures MonthlySlot(spec, local) <==> exists k: nat :: local == InMonth(spec, k)
  {
    hide InMonth, OnDate, MonthNumber, YearOf, MonthOf;
    if MonthlySlot(spec, local) {
      var year: int, month: int :| year >= 1 && 1 <= month <= 12 && OnDate(spec, local, year, month);
      MonthNumbers(year, month);
      InMonthOnDate(spec, MonthNumber(year, month), local);
    }
    if k: nat :| local == InMonth(spec, k) {
      InMonthOnDate(spec, k, local);
      MonthAfter(k);
    }
  }

  lemma MonthlyLeast(spec: Spec, local: int, candidate: int)
    requires ValidTime(spec) && spec.monthDay.Some? && 1 <= spec.monthDay.value <= 28 && local >= 0
    requires var k := MonthContaining(local / DAY);
             candidate == if InMonth(spec, k) <= local then InMonth(spec, k + 1) else InMonth(spec, k)
    ensures MonthlySlot(spec, candidate) && candidate > local
    ensures forall u | u > local && MonthlySlot(spec, u) :: candidate <= u
  {
    hide InMonth, MonthStart, MonthlySlot;
    var today, time := SplitDay(local);
    var k := MonthContaining(today);
    MonthlySlots(spec, candidate);
    assert MonthStart(k) * DAY <= local < MonthStart(k + 1) * DAY;
    SlotInMonth(spec, k);
    SlotInMonth(spec, k + 1);
    forall u | u > local && MonthlySlot(spec, u)
      ensures candidate <= u
    {
      MonthlySlots(spec, u);
      var j: nat :| u == InMonth(spec, j);
      SlotInMonth(spec, j);
      if j < k {
        MonthsInOrder(j, k);
        assert false;
      } else if k + 1 < j {
        MonthsInOrder(k + 1, j);
      }
    }
  }

  /** What is computed is the least slot strictly after the given instant. */
  lemma FollowingIsLeast(spec: Spec, after: int)
    requires ValidTime(spec) && Trouble(spec, Aware(after)).None?
    ensures LeastAfter(spec, after, Following(spec, after))
  {
    hide DailySlot, WeeklySlot, MonthlySlot, InMonth, MonthContaining;
    var zone := spec.zone.value;
    var local := after + zone;
    var t := Following(spec, after);
    if spec.cadence == "daily" {
      DailyLeast(spec, local, t + zone);
    } else if spec.cadence == "weekly" {
      WeeklyLeast(spec, local, t + zone);
    } else {
      MonthlyLeast(spec, local, t + zone);
    }
    forall u | Slot(spec, u) && u > after
      ensures t <= u
    {
      assert u + zone > local;
    }
  }
}
