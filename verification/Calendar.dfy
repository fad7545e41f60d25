/**
 The proleptic Gregorian calendar by month number: month 0 is January of year 1, day 0 is
 its first day, a Monday.
 */
module Calendar {

  predicate Leap(year: int) {
    year % 4 == 0 && (year % 100 != 0 || year % 400 == 0)
  }

  function DaysInMonth(year: int, month: int): (days: nat)
    requires 1 <= month <= 12
    ensures 28 <= days <= 31
  {
    if month == 2 then if Leap(year) then 29 else 28
    else if month == 4 || month == 6 || month == 9 || month == 11 then 30
    else 31
  }

  function YearOf(k: nat): int {
    k / 12 + 1
  }

  function MonthOf(k: nat): (month: int)
    ensures 1 <= month <= 12
  {
    k % 12 + 1
  }

  function MonthNumber(year: int, month: int): nat
    requires year >= 1 && 1 <= month <= 12
  {
    12 * (year - 1) + month - 1
  }

  function MonthLength(k: nat): nat {
    DaysInMonth(YearOf(k), MonthOf(k))
  }

  /** The number of days before a month. */
  function MonthStart(k: nat): nat {
    if k == 0 then 0 else MonthStart(k - 1) + MonthLength(k - 1)
  }

  /** The month a day falls into. */
  function MonthContaining(n: nat): nat {
    SearchMonth(n, 0)
  }

  function SearchMonth(n: nat, k: nat): (m: nat)
    requires MonthStart(k) <= n
    ensures MonthStart(m) <= n < MonthStart(m + 1)
    decreases n - MonthStart(k)
  {
    if n < MonthStart(k + 1) then k else SearchMonth(n, k + 1)
  }

  lemma {:induction false} MonthsInOrder(j: nat, k: nat)
    requires j < k
    ensures MonthStart(j + 1) <= MonthStart(k)
  {
    if j + 1 < k {
      MonthsInOrder(j, k - 1);
    }
  }

  /** Year and month number each other, and the month after December is January of the next year. */
  lemma MonthNumbers(year: int, month: int)
    requires year >= 1 && 1 <= month <= 12
    ensures YearOf(MonthNumber(year, month)) == year && MonthOf(MonthNumber(year, month)) == month
    ensures MonthNumber(year, month) + 1 == if month == 12 then MonthNumber(year + 1, 1) else MonthNumber(year, month + 1)
  {
  }

  function DaysBeforeYear(year: int): int {
    365 * (year - 1) + (year - 1) / 4 - (year - 1) / 100 + (year - 1) / 400
  }

  /** Counting month by month agrees with the closed form for whole years. */
  lemma {:induction false} YearStart(year: int)
    requires year >= 1
    ensures MonthStart(MonthNumber(year, 1)) == DaysBeforeYear(year)
  {
    if year > 1 {
      YearStart(year - 1);
      YearLength(year - 1);
      LeapStep(year - 1);
    }
  }

  /** The number of a date, in closed form. */
  function DateNumber(year: int, month: int, day: int): int {
    DaysBeforeYear(year) + (367 * month - 362) / 12 + (if month <= 2 then 0 else if Leap(year) then -1 else -2) + day - 1
  }

  /** Counting month by month agrees with the closed form for every month. */
  lemma {:induction false} MonthStartsAt(year: int, month: int)
    requires year >= 1 && 1 <= month <= 12
    ensures MonthStart(MonthNumber(year, month))
         == DaysBeforeYear(year) + (367 * month - 362) / 12 + if month <= 2 then 0 else if Leap(year) then -1 else -2
    decreases month
  {
    hide MonthStart, Leap, DaysBeforeYear, DaysInMonth;
    if month == 1 {
      YearStart(year);
    } else {
      MonthStartsAt(year, month - 1);
      MonthLengths(year, month - 1);
      MonthNumbers(year, month - 1);
      LengthOfMonth(year, month - 1);
    }
  }

  lemma LengthOfMonth(year: int, month: int)
    requires 1 <= month <= 11
    ensures DaysInMonth(year, month) == (367 * (month + 1) - 362) / 12 - (367 * month - 362) / 12
                                      - if month == 2 then if Leap(year) then 1 else 2 else 0
  {
    hide Leap;
  }

  lemma YearLength(year: int)
    requires year >= 1
    ensures MonthStart(MonthNumber(year + 1, 1)) == MonthStart(MonthNumber(year, 1)) + if Leap(year) then 366 else 365
  {
    hide Leap, MonthStart, DaysInMonth;
    var k := MonthNumber(year, 1);
    DayCounts(year);
    MonthLengths(year, 1);
    MonthLengths(year, 2);
    MonthLengths(year, 3);
    MonthLengths(year, 4);
    MonthLengths(year, 5);
    MonthLengths(year, 6);
    MonthLengths(year, 7);
    MonthLengths(year, 8);
    MonthLengths(year, 9);
    MonthLengths(year, 10);
    MonthLengths(year, 11);
    MonthLengths(year, 12);
  }

  lemma DayCounts(year: int)
    ensures DaysInMonth(year, 1) + DaysInMonth(year, 3) + DaysInMonth(year, 4) + DaysInMonth(year, 5) + DaysInMonth(year, 6)
            + DaysInMonth(year, 7) + DaysInMonth(year, 8) + DaysInMonth(year, 9) + DaysInMonth(year, 10) + DaysInMonth(year, 11)
            + DaysInMonth(year, 12) == 337
    ensures DaysInMonth(year, 2) == if Leap(year) then 29 else 28
  {
    hide Leap;
  }

  lemma MonthLengths(year: int, month: int)
    requires year >= 1 && 1 <= month <= 12
    ensures MonthStart(MonthNumber(year, month) + 1) == MonthStart(MonthNumber(year, month)) + DaysInMonth(year, month)
  {
    MonthNumbers(year, month);
  }

  lemma LeapStep(year: int)
    requires year >= 1
    ensures DaysBeforeYear(year + 1) == DaysBeforeYear(year) + if Leap(year) then 366 else 365
  {
    hide Leap;
    DivStep(year, 4);
    DivStep(year, 100);
    DivStep(year, 400);
    LeapCount(year);
  }

  lemma LeapCount(y: int)
    ensures (if Leap(y) then 1 else 0) == (if y % 4 == 0 then 1 else 0) - (if y % 100 == 0 then 1 else 0) + (if y % 400 == 0 then 1 else 0)
  {
    if y % 400 == 0 {
      assert y == 4 * (100 * (y / 400)) && y == 100 * (4 * (y / 400));
    } else if y % 100 == 0 {
      assert y == 4 * (25 * (y / 100));
    }
  }

  lemma DivStep(y: int, d: int)
    requires y >= 1 && d in {4, 100, 400}
    ensures y / d == (y - 1) / d + if y % d == 0 then 1 else 0
  {
  }
}
