/** Proleptic Gregorian calendar arithmetic: what the date library supplies to
    the calendar page (`startOfMonth`, `endOfMonth`, `eachDayOfInterval`,
    `getDay`), given as specified functions. Months are numbered 0..11 as
    `Date.getMonth()` numbers them. */
module Dates {

  predicate IsLeapYear(y: int)
  {
    y % 4 == 0 && (y % 100 != 0 || y % 400 == 0)
  }

  predicate ValidMonth(m: int)
  {
    0 <= m < 12
  }

  /** Number of days in month `m` of year `y`. */
  function DaysInMonth(y: int, m: int): (n: int)
    requires ValidMonth(m)
    ensures 28 <= n <= 31
  {
    if m == 1 then (if IsLeapYear(y) then 29 else 28)
    else if m == 3 || m == 5 || m == 8 || m == 10 then 30
    else 31
  }

  predicate ValidDate(y: int, m: int, d: int)
  {
    ValidMonth(m) && 1 <= d <= DaysInMonth(y, m)
  }

  /** Days from 0001-01-01 to the first day of year `y`. */
  function DaysBeforeYear(y: int): int
  {
    365 * (y - 1) + (y - 1) / 4 - (y - 1) / 100 + (y - 1) / 400
  }

  /** Days from the first of January of `y` to the first day of month `m`. */
  function DaysBeforeMonth(y: int, m: int): int
    requires 0 <= m <= 12
  {
    if m == 0 then 0 else DaysBeforeMonth(y, m - 1) + DaysInMonth(y, m - 1)
  }

  /** Consecutive number of a day: 0001-01-01 is day 0. */
  function DayNumber(y: int, m: int, d: int): int
    requires ValidMonth(m)
  {
    DaysBeforeYear(y) + DaysBeforeMonth(y, m) + d - 1
  }

  /** `getDay()`: 0 = Sunday .. 6 = Saturday. 0001-01-01 was a Monday. */
  function DayOfWeek(y: int, m: int, d: int): (w: int)
    requires ValidMonth(m)
    ensures 0 <= w < 7
  {
    (DayNumber(y, m, d) + 1) % 7
  }

  /** The calendar day after a valid date. */
  function NextDay(y: int, m: int, d: int): (r: (int, int, int))
    requires ValidDate(y, m, d)
    ensures ValidDate(r.0, r.1, r.2)
  {
    if d < DaysInMonth(y, m) then (y, m, d + 1)
    else if m < 11 then (y, m + 1, 1)
    else (y + 1, 0, 1)
  }

  lemma StepOfDivision(a: int)
    ensures a / 4 - (a - 1) / 4 == if a % 4 == 0 then 1 else 0
    ensures a / 100 - (a - 1) / 100 == if a % 100 == 0 then 1 else 0
    ensures a / 400 - (a - 1) / 400 == if a % 400 == 0 then 1 else 0
  {
  }

  /** A year has 366 days when it is a leap year and 365 otherwise, counting
      from 0001-01-01 ... */
  lemma YearLength(y: int)
    ensures DaysBeforeYear(y + 1) - DaysBeforeYear(y) == if IsLeapYear(y) then 366 else 365
  {
    StepOfDivision(y);
  }

  /** ... and adding up its months. */
  lemma MonthsMakeYear(y: int)
    ensures DaysBeforeMonth(y, 12) == if IsLeapYear(y) then 366 else 365
  {
    var leap := if IsLeapYear(y) then 1 else 0;
    assert DaysBeforeMonth(y, 1) == 31;
    assert DaysBeforeMonth(y, 2) == 59 + leap;
    assert DaysBeforeMonth(y, 3) == 90 + leap;
    assert DaysBeforeMonth(y, 4) == 120 + leap;
    assert DaysBeforeMonth(y, 5) == 151 + leap;
    assert DaysBeforeMonth(y, 6) == 181 + leap;
    assert DaysBeforeMonth(y, 7) == 212 + leap;
    assert DaysBeforeMonth(y, 8) == 243 + leap;
    assert DaysBeforeMonth(y, 9) == 273 + leap;
    assert DaysBeforeMonth(y, 10) == 304 + leap;
    assert DaysBeforeMonth(y, 11) == 334 + leap;
  }

  /** The day after has the next day number. */
  lemma NextDayNumber(y: int, m: int, d: int)
    requires ValidDate(y, m, d)
    ensures var (y', m', d') := NextDay(y, m, d);
            DayNumber(y', m', d') == DayNumber(y, m, d) + 1
  {
    if d == DaysInMonth(y, m) && m == 11 {
      YearLength(y);
      MonthsMakeYear(y);
    }
  }

  /** Weekdays advance by one from each day to the next, Saturday wrapping to Sunday. */
  lemma DayOfWeekNextDay(y: int, m: int, d: int)
    requires ValidDate(y, m, d)
    ensures var (y', m', d') := NextDay(y, m, d);
            DayOfWeek(y', m', d') == (DayOfWeek(y, m, d) + 1) % 7
  {
    var (y', m', d') := NextDay(y, m, d);
    NextDayNumber(y, m, d);
    WeekdayStep(DayNumber(y, m, d), DayNumber(y', m', d'));
  }

  lemma WeekdayStep(a: int, b: int)
    requires b == a + 1
    ensures (b + 1) % 7 == ((a + 1) % 7 + 1) % 7
  {
  }

  /** Two reference points: 1 January 1970 was a Thursday, and so was 1 May 2025. */
  lemma KnownWeekdays()
    ensures DayOfWeek(1970, 0, 1) == 4
    ensures DayOfWeek(2025, 4, 1) == 4
  {
  }
}
