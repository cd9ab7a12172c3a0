/**
  Dates of the proleptic Gregorian calendar, as Python's `date` type holds
  them: a year from 1 to 9999, a month and a day. A date is also a day number
  (Python's `date.toordinal()`), 0001-01-01 being day 1; the report flow does
  its date arithmetic (`date + timedelta(days = n)`) on day numbers.
*/
module Calendar {

  datatype Date = Date(year: int, month: int, day: int)

  const MinYear := 1
  const MaxYear := 9999

  /** The day number of 9999-12-31, the last date Python can represent. */
  const MaxDay := 3652059

  predicate IsLeap(y: int) {
    y % 4 == 0 && (y % 100 != 0 || y % 400 == 0)
  }

  function DaysInYear(y: int): int {
    if IsLeap(y) then 366 else 365
  }

  /** The second result of `calendar.monthrange(y, m)`. */
  function DaysInMonth(y: int, m: int): (n: int)
    requires 1 <= m <= 12
    ensures 28 <= n <= 31
    ensures n == 29 <==> m == 2 && IsLeap(y)
  {
    if m == 2 then (if IsLeap(y) then 29 else 28)
    else if m == 4 || m == 6 || m == 9 || m == 11 then 30
    else 31
  }

  /** Number of days of year `y` before the first of month `m`. */
  function DaysBeforeMonth(y: int, m: int): int
    requires 1 <= m <= 12
  {
    var leapDay := if m > 2 && IsLeap(y) then 1 else 0;
    leapDay +
    if m == 1 then 0 else if m == 2 then 31 else if m == 3 then 59
    else if m == 4 then 90 else if m == 5 then 120 else if m == 6 then 151
    else if m == 7 then 181 else if m == 8 then 212 else if m == 9 then 243
    else if m == 10 then 273 else if m == 11 then 304 else 334
  }

  /** Number of days before 1 January of year `y`, counted from 0001-01-01. */
  function DaysBeforeYear(y: int): int {
    var y1 := y - 1;
    y1 * 365 + y1 / 4 - y1 / 100 + y1 / 400
  }

  predicate IsValid(d: Date) {
    && MinYear <= d.year <= MaxYear
    && 1 <= d.month <= 12
    && 1 <= d.day <= DaysInMonth(d.year, d.month)
  }

  /** Calendar order of dates: by year, then month, then day. */
  predicate Earlier(a: Date, b: Date) {
    || a.year < b.year
    || (a.year == b.year && a.month < b.month)
    || (a.year == b.year && a.month == b.month && a.day < b.day)
  }

  /** The day number of a date, as `date.toordinal()`. */
  function Ordinal(d: Date): (n: int)
    requires IsValid(d)
    ensures 1 <= n <= MaxDay
  {
    MonthFitsInYear(d.year, d.month);
    DaysBeforeYearMonotone(d.year + 1, MaxYear + 1);
    DaysBeforeYear(d.year) + DaysBeforeMonth(d.year, d.month) + d.day
  }

  /** Day of the week of a day number, Monday being 0, as `date.weekday()`. */
  function Weekday(n: int): (w: int)
    ensures 0 <= w < 7
  {
    (n + 6) % 7
  }

  /**
    Python's convention: 0001-01-01 was a Monday, 2025-07-14 too, and each
    day number advances the weekday by one, wrapping after Sunday.
  */
  lemma WeekdayAnchor(n: int)
    ensures Weekday(Ordinal(Date(1, 1, 1))) == 0
    ensures Weekday(Ordinal(Date(2025, 7, 14))) == 0
    ensures Weekday(n + 1) == (Weekday(n) + 1) % 7
  {
    var q := (n + 6) / 7;
    assert n + 6 == 7 * q + Weekday(n);
    if Weekday(n) == 6 {
      assert n + 7 == 7 * (q + 1);
    } else {
      assert n + 7 == 7 * q + (Weekday(n) + 1);
    }
  }

  /** Stepping back by its weekday lands on a Monday, which is day 1 at the earliest. */
  lemma MondayOf(n: int)
    ensures Weekday(n - Weekday(n)) == 0
    ensures n >= 1 ==> n - Weekday(n) >= 1
  {
    var q, r := (n + 6) / 7, (n + 6) % 7;
    assert n - r + 6 == 7 * q;
    assert (7 * q) % 7 == 0;
    if 1 <= n < 7 {
      assert q == 1;
    }
  }

  /** The date that follows the last day of month `m` of year `y`. */
  function FirstOfNextMonth(y: int, m: int): Date
    requires 1 <= m <= 12
  {
    if m == 12 then Date(y + 1, 1, 1) else Date(y, m + 1, 1)
  }

  lemma DaysBeforeYearStep(y: int)
    ensures DaysBeforeYear(y + 1) == DaysBeforeYear(y) + DaysInYear(y)
  {
    assert y / 4 == (y - 1) / 4 + (if y % 4 == 0 then 1 else 0);
    assert y / 100 == (y - 1) / 100 + (if y % 100 == 0 then 1 else 0);
    assert y / 400 == (y - 1) / 400 + (if y % 400 == 0 then 1 else 0);
  }

  lemma {:induction false} DaysBeforeYearMonotone(a: int, b: int)
    requires a <= b
    ensures DaysBeforeYear(a) + 365 * (b - a) <= DaysBeforeYear(b)
    decreases b - a
  {
    if a < b {
      DaysBeforeYearMonotone(a, b - 1);
      DaysBeforeYearStep(b - 1);
    }
  }

  lemma MonthFitsInYear(y: int, m: int)
    requires 1 <= m <= 12
    ensures DaysBeforeMonth(y, m) + DaysInMonth(y, m) <= DaysInYear(y)
    ensures m == 12 ==> DaysBeforeMonth(y, m) + DaysInMonth(y, m) == DaysInYear(y)
    ensures m < 12 ==> DaysBeforeMonth(y, m) + DaysInMonth(y, m) == DaysBeforeMonth(y, m + 1)
  {
  }

  lemma MonthsInOrder(y: int, m1: int, m2: int)
    requires 1 <= m1 < m2 <= 12
    ensures DaysBeforeMonth(y, m1) + DaysInMonth(y, m1) <= DaysBeforeMonth(y, m2)
  {
  }

  /** The last date Python can hold has day number MaxDay. */
  lemma LastDateIsMaxDay()
    ensures IsValid(Date(MaxYear, 12, 31)) && Ordinal(Date(MaxYear, 12, 31)) == MaxDay
  {
  }

  /**
    Day numbers follow the calendar: one date is earlier than another exactly
    when its day number is smaller. In particular two valid dates with the same
    day number are the same date.
  */
  lemma {:induction false} OrdinalOrder(a: Date, b: Date)
    requires IsValid(a) && IsValid(b)
    ensures Earlier(a, b) <==> Ordinal(a) < Ordinal(b)
    ensures a == b <==> Ordinal(a) == Ordinal(b)
  {
    if a.year < b.year {
      YearBefore(a, b);
    } else if b.year < a.year {
      YearBefore(b, a);
    } else if a.month < b.month {
      MonthsInOrder(a.year, a.month, b.month);
    } else if b.month < a.month {
      MonthsInOrder(a.year, b.month, a.month);
    }
  }

  lemma YearBefore(a: Date, b: Date)
    requires IsValid(a) && IsValid(b) && a.year < b.year
    ensures Ordinal(a) < Ordinal(b)
  {
    MonthFitsInYear(a.year, a.month);
    DaysBeforeYearStep(a.year);
    DaysBeforeYearMonotone(a.year + 1, b.year);
  }

  /** A month's last day is one day before the first of the following month. */
  lemma {:induction false} MonthLength(y: int, m: int)
    requires MinYear <= y <= MaxYear && 1 <= m <= 12 && (y < MaxYear || m < 12)
    ensures IsValid(Date(y, m, 1)) && IsValid(FirstOfNextMonth(y, m))
    ensures Ordinal(Date(y, m, 1)) + DaysInMonth(y, m) == Ordinal(FirstOfNextMonth(y, m))
  {
    MonthFitsInYear(y, m);
    if m == 12 {
      DaysBeforeYearStep(y);
    }
  }
}
