/**
 * Calendar dates as Python's `datetime.date` and the month lengths that
 * `calendar.monthrange` supplies (proleptic Gregorian calendar).
 */
module Calendar {

  /** A calendar date with no time component. */
  datatype Date = Date(year: int, month: int, day: int)

  /** Python's `datetime.MINYEAR` and `datetime.MAXYEAR`. */
  const MinYear := 1
  const MaxYear := 9999

  /** Gregorian leap-year rule, as `calendar.isleap`. */
  predicate IsLeapYear(year: int) {
    year % 4 == 0 && (year % 100 != 0 || year % 400 == 0)
  }

  /** The second component of `calendar.monthrange(year, month)`. */
  function DaysInMonth(year: int, month: int): (n: int)
    requires 1 <= month <= 12
    ensures 28 <= n <= 31
  {
    if month == 2 then (if IsLeapYear(year) then 29 else 28)
    else if month == 4 || month == 6 || month == 9 || month == 11 then 30
    else 31
  }

  /** Days in the months before `month` of `year`. */
  function DaysBeforeMonth(year: int, month: int): int
    requires 1 <= month <= 13
    decreases month
  {
    if month == 1 then 0 else DaysBeforeMonth(year, month - 1) + DaysInMonth(year, month - 1)
  }

  /** A value `datetime.date(year, month, day)` accepts without raising. */
  predicate IsValidDate(d: Date) {
    MinYear <= d.year <= MaxYear && 1 <= d.month <= 12 && 1 <= d.day <= DaysInMonth(d.year, d.month)
  }

  /** Strict chronological order `a < b` of Python dates. */
  predicate Before(a: Date, b: Date) {
    a.year < b.year
    || (a.year == b.year && a.month < b.month)
    || (a.year == b.year && a.month == b.month && a.day < b.day)
  }

  /** The month lengths add up to the length of the Gregorian year. */
  lemma {:induction false} YearLength(year: int)
    ensures DaysBeforeMonth(year, 13) == if IsLeapYear(year) then 366 else 365
  {
    assert DaysBeforeMonth(year, 2) == 31;
    assert DaysBeforeMonth(year, 3) == 31 + DaysInMonth(year, 2);
    assert DaysBeforeMonth(year, 7) == DaysBeforeMonth(year, 3) + 31 + 30 + 31 + 30;
    assert DaysBeforeMonth(year, 13) == DaysBeforeMonth(year, 7) + 31 + 31 + 30 + 31 + 30 + 31;
  }

  /** February is the only month whose length depends on the year, and it has 29 days exactly in leap years. */
  lemma FebruaryLength(year: int, month: int)
    requires 1 <= month <= 12
    ensures DaysInMonth(year, month) == 29 <==> month == 2 && IsLeapYear(year)
    ensures month != 2 ==> DaysInMonth(year, month) == DaysInMonth(year + 1, month)
  {
  }

  /** `Before` is a strict total order on dates. */
  lemma BeforeIsStrictTotalOrder(a: Date, b: Date, c: Date)
    ensures !Before(a, a)
    ensures Before(a, b) ==> !Before(b, a)
    ensures Before(a, b) && Before(b, c) ==> Before(a, c)
    ensures a != b ==> Before(a, b) || Before(b, a)
  {
  }
}
