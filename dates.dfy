/**
 * Calendar dates as Python's `datetime.date` sees them: a date is its proleptic
 * Gregorian ordinal (0001-01-01 is day 1), so adding a `timedelta` of n whole days
 * is adding n, and comparing dates is comparing ordinals.
 */
module Dates {

  type Date = int

  const MONDAY := 0
  const SUNDAY := 6

  /** `date.weekday()`: Monday is 0, Sunday is 6. */
  function Weekday(d: Date): (w: int)
    ensures 0 <= w < 7
  {
    (d + 6) % 7
  }

  lemma WeekdayAfter(d: Date, n: int)
    ensures Weekday(d + n) == (Weekday(d) + n) % 7
  {
  }

  /**
   * The date that stepping forward from d one day at a time stops at, once its
   * weekday is w: the first date on or after d that falls on weekday w.
   */
  function OnOrAfter(d: Date, w: int): (r: Date)
    requires 0 <= w < 7
    ensures d <= r <= d + 6
    ensures Weekday(r) == w
  {
    d + (w - Weekday(d) + 7) % 7
  }

  /** No date from d up to OnOrAfter(d, w) falls on weekday w: it is the first. */
  lemma OnOrAfterIsFirst(d: Date, w: int, e: Date)
    requires 0 <= w < 7 && d <= e < OnOrAfter(d, w)
    ensures Weekday(e) != w
  {
    var wd, k := Weekday(d), e - d;
    WeekdayAfter(d, k);
    if w >= wd {
      assert k < w - wd;
      assert Weekday(e) == wd + k;
    } else {
      assert k < w - wd + 7;
      if wd + k < 7 {
        assert Weekday(e) == wd + k;
      } else {
        assert Weekday(e) == wd + k - 7;
      }
    }
  }

  /**
   * From a Monday, stepping n - 1 days forward and then on to a Sunday covers the
   * least whole number of weeks that holds n days.
   */
  lemma {:induction false} SundayAfterSpan(monday: Date, n: int)
    requires Weekday(monday) == MONDAY
    ensures OnOrAfter(monday + n - 1, SUNDAY) == monday + 7 * ((n + 6) / 7) - 1
  {
    var r := OnOrAfter(monday + n - 1, SUNDAY);
    var c := (n + 6) / 7;
    WeekdayAfter(monday, r - monday);
    assert (r - monday) % 7 == 6;
    assert 7 * c - 7 < n <= 7 * c;
  }

  // Civil dates, as `date(year, month, day)`; used where the Python code reads a
  // date's year, month and day.

  datatype CivilDate = CivilDate(year: int, month: int, day: int)

  predicate IsLeap(y: int) {
    y % 4 == 0 && (y % 100 != 0 || y % 400 == 0)
  }

  function DaysInMonth(y: int, m: int): int
    requires 1 <= m <= 12
  {
    if m == 2 then (if IsLeap(y) then 29 else 28)
    else if m == 4 || m == 6 || m == 9 || m == 11 then 30
    else 31
  }

  /** Days of year y before the first of month m. */
  function DaysBeforeMonth(y: int, m: int): (n: int)
    requires 1 <= m <= 12
    ensures n + DaysInMonth(y, m) <= if IsLeap(y) then 366 else 365
  {
    [0, 31, 59, 90, 120, 151, 181, 212, 243, 273, 304, 334][m - 1]
      + (if m > 2 && IsLeap(y) then 1 else 0)
  }

  /** The table is cumulative: January starts the year, and each month starts where the one before it ends. */
  lemma DaysBeforeMonthCumulative(y: int, m: int)
    requires 1 <= m <= 12
    ensures m == 1 ==> DaysBeforeMonth(y, m) == 0
    ensures m < 12 ==> DaysBeforeMonth(y, m + 1) == DaysBeforeMonth(y, m) + DaysInMonth(y, m)
  {
  }

  /** Days in the years before year y. */
  function DaysBeforeYear(y: int): int
    requires y >= 1
  {
    var p := y - 1;
    365 * p + p / 4 - p / 100 + p / 400
  }

  lemma YearLength(y: int)
    requires y >= 1
    ensures DaysBeforeYear(y + 1) - DaysBeforeYear(y) == if IsLeap(y) then 366 else 365
  {
    var p := y - 1;
    assert (p + 1) / 4 - p / 4 == if y % 4 == 0 then 1 else 0;
    assert (p + 1) / 100 - p / 100 == if y % 100 == 0 then 1 else 0;
    assert (p + 1) / 400 - p / 400 == if y % 400 == 0 then 1 else 0;
  }

  lemma {:induction false} DaysBeforeYearMonotone(y1: int, y2: int)
    requires 1 <= y1 <= y2
    ensures DaysBeforeYear(y1) + 365 * (y2 - y1) <= DaysBeforeYear(y2)
    decreases y2 - y1
  {
    if y1 < y2 {
      YearLength(y1);
      DaysBeforeYearMonotone(y1 + 1, y2);
    }
  }

  /** The date range `datetime.date` accepts. */
  predicate ValidCivil(c: CivilDate) {
    1 <= c.year <= 9999 && 1 <= c.month <= 12 && 1 <= c.day <= DaysInMonth(c.year, c.month)
  }

  /** `date.toordinal()`. */
  function ToOrdinal(c: CivilDate): (o: Date)
    requires ValidCivil(c)
    ensures DaysBeforeYear(c.year) < o <= DaysBeforeYear(c.year + 1)
  {
    YearLength(c.year);
    DaysBeforeYear(c.year) + DaysBeforeMonth(c.year, c.month) + c.day
  }

  /** A date in an earlier year is an earlier date. */
  lemma EarlierYearEarlierDate(a: CivilDate, b: CivilDate)
    requires ValidCivil(a) && ValidCivil(b)
    requires a.year < b.year
    ensures ToOrdinal(a) < ToOrdinal(b)
  {
    DaysBeforeYearMonotone(a.year + 1, b.year);
  }
}
