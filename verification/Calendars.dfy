/** The proleptic Gregorian calendar of Python's `datetime`: dates and their day numbers. */
module Calendars {
  const MIN_YEAR: int := 1
  const MAX_YEAR: int := 9999

  datatype Date = Date(year: int, month: int, day: int)

  predicate Leap(year: int) {
    year % 4 == 0 && (year % 100 != 0 || year % 400 == 0)
  }

  function DaysInMonth(year: int, month: int): int {
    if month == 2 then (if Leap(year) then 29 else 28)
    else if month in {4, 6, 9, 11} then 30
    else 31
  }

  function DaysInYear(year: int): int {
    if Leap(year) then 366 else 365
  }

  predicate ValidDate(d: Date) {
    MIN_YEAR <= d.year <= MAX_YEAR && 1 <= d.month <= 12 && 1 <= d.day <= DaysInMonth(d.year, d.month)
  }

  /** Days before the first of January of a year, counted from year 1. */
  function DaysBeforeYear(year: int): int {
    var y := year - 1;
    y * 365 + y / 4 - y / 100 + y / 400
  }

  function DaysBeforeMonth(year: int, month: int): int
    decreases month
  {
    if month <= 1 then 0 else DaysBeforeMonth(year, month - 1) + DaysInMonth(year, month - 1)
  }

  /** `date.toordinal`. */
  function Ordinal(d: Date): int {
    DaysBeforeYear(d.year) + DaysBeforeMonth(d.year, d.month) + d.day
  }

  const MIN_ORDINAL: int := 1
  const MAX_ORDINAL: int := 3652059

  predicate DateLess(a: Date, b: Date) {
    || a.year < b.year
    || (a.year == b.year && a.month < b.month)
    || (a.year == b.year && a.month == b.month && a.day < b.day)
  }

  lemma YearLength(year: int)
    ensures DaysBeforeYear(year + 1) == DaysBeforeYear(year) + DaysInYear(year)
  {
    var y := year;
    assert y / 4 - (y - 1) / 4 == if y % 4 == 0 then 1 else 0;
    assert y / 100 - (y - 1) / 100 == if y % 100 == 0 then 1 else 0;
    assert y / 400 - (y - 1) / 400 == if y % 400 == 0 then 1 else 0;
    assert y % 400 == 0 ==> y % 100 == 0;
    assert y % 100 == 0 ==> y % 4 == 0;
  }

  lemma MonthsFillYear(year: int)
    ensures DaysBeforeMonth(year, 12) + DaysInMonth(year, 12) == DaysInYear(year)
  {
    assert DaysBeforeMonth(year, 3) == 31 + DaysInMonth(year, 2);
    assert DaysBeforeMonth(year, 6) == DaysBeforeMonth(year, 3) + 92;
    assert DaysBeforeMonth(year, 9) == DaysBeforeMonth(year, 6) + 92;
    assert DaysBeforeMonth(year, 12) == DaysBeforeMonth(year, 9) + 91;
  }

  lemma {:induction false} MonthsAscend(year: int, m: int, n: int)
    requires 1 <= m < n <= 12
    ensures DaysBeforeMonth(year, m) + DaysInMonth(year, m) <= DaysBeforeMonth(year, n)
    decreases n - m
  {
    if m + 1 < n {
      MonthsAscend(year, m, n - 1);
    }
  }

  lemma {:induction false} YearsAscend(y: int, z: int)
    requires y < z
    ensures DaysBeforeYear(y) + DaysInYear(y) <= DaysBeforeYear(z)
    decreases z - y
  {
    YearLength(z - 1);
    if y + 1 < z {
      YearsAscend(y, z - 1);
    }
  }

  /** A date lies within its year. */
  lemma DayOfYear(d: Date)
    requires ValidDate(d)
    ensures DaysBeforeYear(d.year) < Ordinal(d) <= DaysBeforeYear(d.year) + DaysInYear(d.year)
  {
    MonthsFillYear(d.year);
    BeforeMonthPositive(d.year, d.month);
    if d.month < 12 {
      MonthsAscend(d.year, d.month, 12);
    }
  }

  lemma {:induction false} BeforeMonthPositive(year: int, month: int)
    ensures 0 <= DaysBeforeMonth(year, month)
    decreases month
  {
    if month > 1 {
      BeforeMonthPositive(year, month - 1);
    }
  }

  /** Day numbers follow the order of (year, month, day). */
  lemma OrdinalsFollowDates(a: Date, b: Date)
    requires ValidDate(a) && ValidDate(b)
    ensures DateLess(a, b) <==> Ordinal(a) < Ordinal(b)
  {
    if DateLess(a, b) {
      EarlierIsSmaller(a, b);
    } else if DateLess(b, a) {
      EarlierIsSmaller(b, a);
    }
  }

  lemma EarlierIsSmaller(a: Date, b: Date)
    requires ValidDate(a) && ValidDate(b) && DateLess(a, b)
    ensures Ordinal(a) < Ordinal(b)
  {
    DayOfYear(a);
    DayOfYear(b);
    if a.year < b.year {
      YearsAscend(a.year, b.year);
    } else if a.month < b.month {
      MonthsAscend(a.year, a.month, b.month);
    }
  }

  function NextDay(d: Date): Date {
    if d.day < DaysInMonth(d.year, d.month) then Date(d.year, d.month, d.day + 1)
    else if d.month < 12 then Date(d.year, d.month + 1, 1)
    else Date(d.year + 1, 1, 1)
  }

  lemma NextDayIsNext(d: Date)
    requires 1 <= d.month <= 12 && d.day <= DaysInMonth(d.year, d.month)
    ensures Ordinal(NextDay(d)) == Ordinal(d) + 1
  {
    if d.day >= DaysInMonth(d.year, d.month) && d.month == 12 {
      YearLength(d.year);
      MonthsFillYear(d.year);
    }
  }

  /** `date.fromordinal`: the inverse of `Ordinal`. */
  ghost function DateOf(n: int): (d: Date)
    requires 1 <= n
    ensures 1 <= d.month <= 12 && 1 <= d.day <= DaysInMonth(d.year, d.month) && 1 <= d.year
    ensures Ordinal(d) == n
    decreases n
  {
    if n == 1 then Date(1, 1, 1)
    else
      NextDayIsNext(DateOf(n - 1));
      NextDay(DateOf(n - 1))
  }

  /** In the supported range every day number is that of a valid date. */
  lemma DateOfIsValid(n: int)
    requires MIN_ORDINAL <= n <= MAX_ORDINAL
    ensures ValidDate(DateOf(n))
  {
    var d := DateOf(n);
    if d.year > MAX_YEAR {
      YearsAscend(MAX_YEAR, d.year);
      BeforeMonthPositive(d.year, d.month);
    }
  }

  lemma LeapYears()
    ensures Leap(2000) && !Leap(1900) && Leap(2024) && !Leap(2023)
  {
  }

  /** The day numbers start at 1. */
  lemma FirstDay()
    ensures Ordinal(Date(MIN_YEAR, 1, 1)) == MIN_ORDINAL
  {
  }

  /** The day Unix time starts, and the day after a leap day of a century. */
  lemma KnownDays()
    ensures Ordinal(Date(1970, 1, 1)) == 719163 && Ordinal(Date(2000, 3, 1)) == 730180
  {
    assert DaysBeforeMonth(2000, 2) == 31;
  }

  /** `date.max.toordinal()`. */
  lemma LastDay()
    ensures Ordinal(Date(MAX_YEAR, 12, 31)) == MAX_ORDINAL
  {
    MonthsFillYear(9999);
  }
}
