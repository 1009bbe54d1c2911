/** The proleptic Gregorian calendar of JavaScript's `Date`: month lengths with the
    divisible-by-4/100/400 leap rule and the day-of-week numbering of `getDay`
    (Sunday = 0, Monday = 1, ..., Saturday = 6). */
module Calendar {

  predicate IsLeapYear(y: int) {
    y % 4 == 0 && (y % 100 != 0 || y % 400 == 0)
  }

  /** The last day of month `m` of year `y`: what `new Date(y, m, 0).getDate()` returns. */
  function DaysInMonth(m: int, y: int): (n: int)
    requires 1 <= m <= 12
    ensures 28 <= n <= 31
    ensures m == 2 ==> (n == 29 <==> IsLeapYear(y))
  {
    if m == 2 then (if IsLeapYear(y) then 29 else 28)
    else if m == 4 || m == 6 || m == 9 || m == 11 then 30
    else 31
  }

  function YearLength(y: int): int {
    if IsLeapYear(y) then 366 else 365
  }

  /** Days of year `y` before the first of month `m` (m = 13 gives the whole year). */
  function DaysBeforeMonth(m: int, y: int): int
    requires 1 <= m <= 13
  {
    if m == 1 then 0 else DaysBeforeMonth(m - 1, y) + DaysInMonth(m - 1, y)
  }

  /** The twelve months add up to the year's length. */
  lemma MonthsFillYear(y: int)
    ensures DaysBeforeMonth(13, y) == YearLength(y)
  {
    var f := if IsLeapYear(y) then 1 else 0;
    assert DaysBeforeMonth(2, y) == 31;
    assert DaysBeforeMonth(3, y) == 59 + f;
    assert DaysBeforeMonth(4, y) == 90 + f;
    assert DaysBeforeMonth(5, y) == 120 + f;
    assert DaysBeforeMonth(6, y) == 151 + f;
    assert DaysBeforeMonth(7, y) == 181 + f;
    assert DaysBeforeMonth(8, y) == 212 + f;
    assert DaysBeforeMonth(9, y) == 243 + f;
    assert DaysBeforeMonth(10, y) == 273 + f;
    assert DaysBeforeMonth(11, y) == 304 + f;
    assert DaysBeforeMonth(12, y) == 334 + f;
    assert DaysBeforeMonth(13, y) == 365 + f;
  }

  /** Days from 1 January of year 1 to 1 January of year y (y >= 1), in closed form. */
  function DaysBeforeYear(y: int): int
    requires y >= 1
  {
    365 * (y - 1) + (y - 1) / 4 - (y - 1) / 100 + (y - 1) / 400
  }

  /** The same count, year by year: the definition the closed form must agree with. */
  function DaysBeforeYearByCounting(y: int): int
    requires y >= 1
  {
    if y == 1 then 0 else DaysBeforeYearByCounting(y - 1) + YearLength(y - 1)
  }

  lemma YearStep(y: int)
    requires y >= 1
    ensures DaysBeforeYear(y + 1) == DaysBeforeYear(y) + YearLength(y)
  {
    assert y / 4 == (y - 1) / 4 + (if y % 4 == 0 then 1 else 0);
    assert y / 100 == (y - 1) / 100 + (if y % 100 == 0 then 1 else 0);
    assert y / 400 == (y - 1) / 400 + (if y % 400 == 0 then 1 else 0);
    assert y % 400 == 0 ==> y % 100 == 0 && y % 4 == 0;
    assert y % 100 == 0 ==> y % 4 == 0;
  }

  /** The closed form counts exactly the leap years the leap rule names. */
  lemma {:induction false} DaysBeforeYearCorrect(y: int)
    requires y >= 1
    ensures DaysBeforeYear(y) == DaysBeforeYearByCounting(y)
    decreases y
  {
    if y > 1 {
      DaysBeforeYearCorrect(y - 1);
      YearStep(y - 1);
    }
  }

  /** Day number of a date: 1 January of year 1 is day 1. */
  function DayNumber(y: int, m: int, d: int): int
    requires y >= 1 && 1 <= m <= 12
  {
    DaysBeforeYear(y) + DaysBeforeMonth(m, y) + d
  }

  /** `new Date(y, m - 1, d).getDay()`. 1 January of year 1 (day number 1) was a Monday. */
  function DayOfWeek(y: int, m: int, d: int): (w: int)
    requires y >= 1 && 1 <= m <= 12
    ensures 0 <= w < 7
  {
    DayNumber(y, m, d) % 7
  }

  /** Consecutive days of a month have consecutive weekdays. */
  lemma NextDayOfWeek(y: int, m: int, d: int)
    requires y >= 1 && 1 <= m <= 12
    ensures DayOfWeek(y, m, d + 1) == (DayOfWeek(y, m, d) + 1) % 7
  {
  }

  /** The day after the last of a month is the first of the next month, across the turn of
      the year too: the day numbering has no gaps or overlaps. */
  lemma MonthBoundary(y: int, m: int)
    requires y >= 1 && 1 <= m <= 12
    ensures m < 12 ==> DayNumber(y, m, DaysInMonth(m, y)) + 1 == DayNumber(y, m + 1, 1)
    ensures m == 12 ==> DayNumber(y, 12, 31) + 1 == DayNumber(y + 1, 1, 1)
  {
    if m == 12 {
      YearStep(y);
      MonthsFillYear(y);
    }
  }

  /** Anchor: 1 January 2024 was a Monday. */
  lemma FirstOf2024IsMonday()
    ensures DayOfWeek(2024, 1, 1) == 1
  {
  }

  /** 1 when day number `x` falls on weekday `w`, else 0. */
  function Hit(x: int, w: int): nat {
    if x % 7 == w then 1 else 0
  }

  /** How many of the `n` consecutive day numbers `first, ..., first + n - 1` fall on weekday `w`. */
  function CountWeekday(first: int, n: nat, w: int): nat {
    if n == 0 then 0 else CountWeekday(first, n - 1, w) + Hit(first + n - 1, w)
  }

  lemma {:induction false} CountWeekdayMonotone(first: int, n: nat, k: nat, w: int)
    requires n <= k
    ensures CountWeekday(first, n, w) <= CountWeekday(first, k, w)
    decreases k
  {
    if n < k { CountWeekdayMonotone(first, n, k - 1, w); }
  }

  lemma ModShift(b: int, k: int)
    requires 0 <= k < 7
    ensures (b + k) % 7 == (b % 7 + k) % 7
  {
    assert b + k == 7 * (b / 7) + (b % 7 + k);
  }

  lemma SevenHits(b: int, w: int)
    requires 0 <= w < 7
    ensures Hit(b, w) + Hit(b + 1, w) + Hit(b + 2, w) + Hit(b + 3, w) + Hit(b + 4, w)
      + Hit(b + 5, w) + Hit(b + 6, w) == 1
  {
    ModShift(b, 1);
    ModShift(b, 2);
    ModShift(b, 3);
    ModShift(b, 4);
    ModShift(b, 5);
    ModShift(b, 6);
  }

  /** Any seven consecutive days hold each weekday exactly once. */
  lemma WeekStep(first: int, n: nat, w: int)
    requires 0 <= w < 7
    ensures CountWeekday(first, n + 7, w) == CountWeekday(first, n, w) + 1
  {
    var b := first + n;
    SevenHits(b, w);
    assert CountWeekday(first, n + 1, w) == CountWeekday(first, n + 0, w) + Hit(b + 0, w);
    assert CountWeekday(first, n + 2, w) == CountWeekday(first, n + 1, w) + Hit(b + 1, w);
    assert CountWeekday(first, n + 3, w) == CountWeekday(first, n + 2, w) + Hit(b + 2, w);
    assert CountWeekday(first, n + 4, w) == CountWeekday(first, n + 3, w) + Hit(b + 3, w);
    assert CountWeekday(first, n + 5, w) == CountWeekday(first, n + 4, w) + Hit(b + 4, w);
    assert CountWeekday(first, n + 6, w) == CountWeekday(first, n + 5, w) + Hit(b + 5, w);
    assert CountWeekday(first, n + 7, w) == CountWeekday(first, n + 6, w) + Hit(b + 6, w);
  }

  /** A month of 28 to 31 days holds every weekday four or five times, and a 28-day month
      exactly four times. */
  lemma WeekdaysInMonth(first: int, n: nat, w: int)
    requires 28 <= n <= 31 && 0 <= w < 7
    ensures 4 <= CountWeekday(first, n, w) <= 5
    ensures n == 28 ==> CountWeekday(first, n, w) == 4
  {
    WeekStep(first, 0, w);
    WeekStep(first, 7, w);
    WeekStep(first, 14, w);
    WeekStep(first, 21, w);
    WeekStep(first, 28, w);
    CountWeekdayMonotone(first, 28, n, w);
    CountWeekdayMonotone(first, n, 35, w);
  }
}
