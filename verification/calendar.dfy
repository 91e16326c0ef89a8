/** Proleptic Gregorian calendar arithmetic on integer dates, in the form the
    JavaScript `Date` constructor uses: months are numbered 0-11 and an
    out-of-range month or day carries into the neighbouring year or month. Day
    numbers count from 1970-01-01; instants are milliseconds. */
module Calendar {

  const MsPerDay := 86400000

  predicate IsLeap(y: int) {
    y % 4 == 0 && (y % 100 != 0 || y % 400 == 0)
  }

  /** Length of month `m` (0 = January) of year `y`. */
  function DaysInMonth(y: int, m: int): (r: int)
    requires 0 <= m < 12
    ensures 28 <= r <= 31
    ensures m == 1 ==> (r == 29 <==> IsLeap(y)) && (r == 28 <==> !IsLeap(y))
    ensures m != 1 ==> r == (if m == 3 || m == 5 || m == 8 || m == 10 then 30 else 31)
  {
    if m == 1 then (if IsLeap(y) then 29 else 28)
    else if m == 3 || m == 5 || m == 8 || m == 10 then 30
    else 31
  }

  /** Days in the months of `y` before month `m`. */
  function DaysBeforeMonth(y: int, m: int): int
    requires 0 <= m <= 12
  {
    if m == 0 then 0 else DaysBeforeMonth(y, m - 1) + DaysInMonth(y, m - 1)
  }

  /** Leap years in 1..n counted the Gregorian way (floor division, so it also
      holds for n <= 0). */
  function LeapsThrough(n: int): int {
    n / 4 - n / 100 + n / 400
  }

  /** Day number of January 1 of `y`. */
  function DaysBeforeYear(y: int): int {
    365 * (y - 1970) + LeapsThrough(y - 1) - LeapsThrough(1969)
  }

  /** JavaScript's `MakeDay(y, m, d)`: the month carries into the year, the day
      counts from the first of the month (so day 0 is the day before it). */
  function MakeDay(y: int, m: int, d: int): int {
    var year := y + m / 12;
    var month := m % 12;
    DaysBeforeYear(year) + DaysBeforeMonth(year, month) + d - 1
  }

  /** `MakeTime(h, min, s, ms)` in milliseconds. */
  function MakeTime(h: int, min: int, s: int, ms: int): int {
    ((h * 60 + min) * 60 + s) * 1000 + ms
  }

  function MakeDate(day: int, time: int): int {
    day * MsPerDay + time
  }

  /** Floor division by `k` steps up by one exactly at multiples of `k`. */
  lemma StepOfFloorDiv(y: int, k: int)
    requires k == 4 || k == 100 || k == 400
    ensures y / k - (y - 1) / k == if y % k == 0 then 1 else 0
  {
    if k == 4 {
    } else if k == 100 {
    } else {
    }
  }

  lemma LeapStep(y: int)
    ensures LeapsThrough(y) - LeapsThrough(y - 1) == if IsLeap(y) then 1 else 0
  {
    StepOfFloorDiv(y, 4);
    StepOfFloorDiv(y, 100);
    StepOfFloorDiv(y, 400);
    DivisorsNest(y);
  }

  lemma DivisorsNest(y: int)
    ensures y % 100 == 0 ==> y % 4 == 0
    ensures y % 400 == 0 ==> y % 100 == 0
  {
    if y % 100 == 0 {
      var q := y / 100;
      assert y == 4 * (25 * q);
    }
    if y % 400 == 0 {
      var q := y / 400;
      assert y == 100 * (4 * q);
    }
  }

  lemma MonthsOfYear(y: int)
    ensures DaysBeforeMonth(y, 12) == 337 + DaysInMonth(y, 1)
  {
    assert DaysBeforeMonth(y, 1) == 31;
    assert DaysBeforeMonth(y, 2) == 31 + DaysInMonth(y, 1);
    assert DaysBeforeMonth(y, 4) == DaysBeforeMonth(y, 2) + 61;
    assert DaysBeforeMonth(y, 6) == DaysBeforeMonth(y, 4) + 61;
    assert DaysBeforeMonth(y, 8) == DaysBeforeMonth(y, 6) + 62;
    assert DaysBeforeMonth(y, 10) == DaysBeforeMonth(y, 8) + 61;
    assert DaysBeforeMonth(y, 12) == DaysBeforeMonth(y, 10) + 61;
  }

  /** A year is 365 days long, 366 when leap. */
  lemma YearLength(y: int)
    ensures DaysBeforeYear(y + 1) - DaysBeforeYear(y) == DaysBeforeMonth(y, 12)
    ensures DaysBeforeMonth(y, 12) == if IsLeap(y) then 366 else 365
  {
    LeapStep(y);
    MonthsOfYear(y);
  }

  /** Day 0 of the following month is the last day of this month, also across
      the end of the year: `new Date(y, m + 1, 0)`. */
  lemma DayZeroIsLastDay(y: int, m: int)
    requires 0 <= m < 12
    ensures MakeDay(y, m + 1, 0) == MakeDay(y, m, DaysInMonth(y, m))
  {
    if m == 11 {
      YearLength(y);
      assert (m + 1) / 12 == 1 && (m + 1) % 12 == 0;
    } else {
      assert (m + 1) / 12 == 0 && (m + 1) % 12 == m + 1;
    }
  }

  /** The first of the next month follows the last of this one. */
  lemma NextMonthFollows(y: int, m: int)
    requires 0 <= m < 12
    ensures MakeDay(y, m + 1, 1) == MakeDay(y, m, DaysInMonth(y, m)) + 1
  {
    DayZeroIsLastDay(y, m);
  }

  /** The next month, December rolling over into January of the next year,
      starts as many days after this month's first as this month has. */
  lemma NextMonthStart(y: int, m: int)
    requires 0 <= m < 12
    ensures var (ny, nm) := if m == 11 then (y + 1, 0) else (y, m + 1);
      MakeDay(ny, nm, 1) == MakeDay(y, m, 1) + DaysInMonth(y, m)
  {
    NextMonthFollows(y, m);
    assert MakeDay(y, m, DaysInMonth(y, m)) == MakeDay(y, m, 1) + DaysInMonth(y, m) - 1;
    if m == 11 {
      assert 12 / 12 == 1 && 12 % 12 == 0 && 0 / 12 == 0 && 0 % 12 == 0;
      assert MakeDay(y, 12, 1) == MakeDay(y + 1, 0, 1);
    }
  }

  /** Fixed points against the epoch: 1970-01-01, 2000-01-01 and the leap day 2024-02-29. */
  lemma EpochAnchors()
    ensures MakeDay(1970, 0, 1) == 0
    ensures MakeDay(2000, 0, 1) == 10957
    ensures MakeDay(2024, 1, 29) == 19782
  {
    assert LeapsThrough(1969) == 477;
    assert LeapsThrough(1999) == 484;
    assert LeapsThrough(2023) == 490;
    assert DaysBeforeYear(2000) == 10957;
    assert DaysBeforeYear(2024) == 19723;
    assert DaysBeforeMonth(2024, 1) == 31;
  }
}
