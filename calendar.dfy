/**
 * The proleptic Gregorian calendar on unbounded integer years: leap years,
 * month lengths, a day count (ordinal) that numbers consecutive days with
 * consecutive integers (day 1 is 0001-01-01, as Python's date.toordinal
 * numbers them), weekdays, and adding a signed number of days to a date.
 */
module Calendar {

  datatype Date = Date(year: int, month: int, day: int)

  /** Gregorian leap-year rule: divisible by 4, except centuries not divisible by 400. */
  predicate IsLeap(y: int) {
    y % 4 == 0 && (y % 100 != 0 || y % 400 == 0)
  }

  function DaysInMonth(y: int, m: int): (n: int)
    requires 1 <= m <= 12
    ensures 28 <= n <= 31
  {
    if m == 2 then (if IsLeap(y) then 29 else 28)
    else if m == 4 || m == 6 || m == 9 || m == 11 then 30
    else 31
  }

  function DaysInYear(y: int): int {
    if IsLeap(y) then 366 else 365
  }

  /** A date names a real day: the month is 1..12 and the day fits in that month. */
  predicate Valid(d: Date) {
    1 <= d.month <= 12 && 1 <= d.day <= DaysInMonth(d.year, d.month)
  }

  /** Calendar order, compared field by field (year, then month, then day). */
  predicate Less(a: Date, b: Date) {
    a.year < b.year
    || (a.year == b.year && a.month < b.month)
    || (a.year == b.year && a.month == b.month && a.day < b.day)
  }

  predicate LessEq(a: Date, b: Date) {
    a == b || Less(a, b)
  }

  function Min(a: Date, b: Date): Date {
    if LessEq(a, b) then a else b
  }

  function Max(a: Date, b: Date): Date {
    if LessEq(a, b) then b else a
  }

  /** Days in the years before year y (from 0001-01-01 on; negative for years before 1). */
  function DaysBeforeYear(y: int): int
    decreases if y >= 1 then y - 1 else 1 - y
  {
    if y == 1 then 0
    else if y > 1 then DaysBeforeYear(y - 1) + DaysInYear(y - 1)
    else DaysBeforeYear(y + 1) - DaysInYear(y)
  }

  /** The leap days before year y: one every four years, none in a century year unless divisible by 400. */
  function LeapDaysBefore(y: int): int {
    var p := y - 1;
    p / 4 - p / 100 + p / 400
  }

  lemma Div4Step(y: int)
    ensures y / 4 - (y - 1) / 4 == (if y % 4 == 0 then 1 else 0)
  {
  }

  lemma Div100Step(y: int)
    ensures y / 100 - (y - 1) / 100 == (if y % 100 == 0 then 1 else 0)
  {
  }

  lemma Div400Step(y: int)
    ensures y / 400 - (y - 1) / 400 == (if y % 400 == 0 then 1 else 0)
  {
  }

  lemma LeapDaysStep(y: int)
    ensures LeapDaysBefore(y + 1) == LeapDaysBefore(y) + (if IsLeap(y) then 1 else 0)
  {
    Div4Step(y);
    Div100Step(y);
    Div400Step(y);
    assert y % 400 == 0 ==> y % 100 == 0;
    assert y % 100 == 0 ==> y % 4 == 0;
  }

  /** The closed form of the day count before a year: 365 days a year plus the leap days. */
  lemma {:induction false} DaysBeforeYearFormula(y: int)
    ensures DaysBeforeYear(y) == 365 * (y - 1) + LeapDaysBefore(y)
    decreases if y >= 1 then y - 1 else 1 - y
  {
    if y > 1 {
      DaysBeforeYearFormula(y - 1);
      LeapDaysStep(y - 1);
    } else if y < 1 {
      DaysBeforeYearFormula(y + 1);
      LeapDaysStep(y);
    }
  }

  /** Days in a common year before month m begins. */
  function CommonDaysBeforeMonth(m: int): int
    requires 1 <= m <= 12
  {
    if m == 1 then 0 else if m == 2 then 31 else if m == 3 then 59
    else if m == 4 then 90 else if m == 5 then 120 else if m == 6 then 151
    else if m == 7 then 181 else if m == 8 then 212 else if m == 9 then 243
    else if m == 10 then 273 else if m == 11 then 304 else 334
  }

  function DaysBeforeMonth(y: int, m: int): int
    requires 1 <= m <= 12
  {
    CommonDaysBeforeMonth(m) + (if m > 2 && IsLeap(y) then 1 else 0)
  }

  /** The day number of a date; consecutive days have consecutive numbers. */
  function Ordinal(d: Date): (r: int)
    requires 1 <= d.month <= 12
    ensures Valid(d) ==> DaysBeforeYear(d.year) < r <= DaysBeforeYear(d.year) + DaysInYear(d.year)
  {
    MonthFitsYear(d.year, d.month);
    DaysBeforeYear(d.year) + DaysBeforeMonth(d.year, d.month) + d.day
  }

  /** Day of the week, Monday = 0 through Sunday = 6 (0001-01-01 was a Monday). */
  function Weekday(d: Date): (w: int)
    requires 1 <= d.month <= 12
    ensures 0 <= w < 7
  {
    (Ordinal(d) + 6) % 7
  }

  /** Day 1 is 0001-01-01, a Monday, as in Python's date.toordinal and date.weekday. */
  lemma OrdinalOrigin()
    ensures Ordinal(Date(1, 1, 1)) == 1
    ensures Weekday(Date(1, 1, 1)) == 0
  {
    assert DaysBeforeYear(1) == 0;
    assert DaysBeforeMonth(1, 1) == 0;
    assert Weekday(Date(1, 1, 1)) == 7 % 7;
    assert 7 % 7 == 0;
  }

  function FirstOfNextMonth(y: int, m: int): (r: Date)
    requires 1 <= m <= 12
    ensures Valid(r) && r.day == 1
  {
    if m == 12 then Date(y + 1, 1, 1) else Date(y, m + 1, 1)
  }

  function LastOfPrevMonth(y: int, m: int): (r: Date)
    requires 1 <= m <= 12
    ensures Valid(r) && r.day == DaysInMonth(r.year, r.month)
  {
    if m == 1 then Date(y - 1, 12, 31) else Date(y, m - 1, DaysInMonth(y, m - 1))
  }

  /** A year adds 365 days, or 366 when it is a leap year. */
  lemma YearStep(y: int)
    ensures DaysBeforeYear(y + 1) == DaysBeforeYear(y) + DaysInYear(y)
  {
  }

  lemma MonthStep(y: int, m: int)
    requires 1 <= m < 12
    ensures DaysBeforeMonth(y, m + 1) == DaysBeforeMonth(y, m) + DaysInMonth(y, m)
  {
  }

  lemma LastMonthFillsYear(y: int)
    ensures DaysBeforeMonth(y, 12) + 31 == DaysInYear(y)
  {
  }

  /** The day after the last day of a month is the first day of the next month. */
  lemma OrdinalNextMonth(y: int, m: int)
    requires 1 <= m <= 12
    ensures Ordinal(FirstOfNextMonth(y, m)) == Ordinal(Date(y, m, DaysInMonth(y, m))) + 1
  {
    if m == 12 {
      YearStep(y);
      LastMonthFillsYear(y);
    } else {
      MonthStep(y, m);
    }
  }

  lemma OrdinalPrevMonth(y: int, m: int)
    requires 1 <= m <= 12
    ensures Ordinal(LastOfPrevMonth(y, m)) + 1 == Ordinal(Date(y, m, 1))
  {
    if m == 1 {
      OrdinalNextMonth(y - 1, 12);
    } else {
      OrdinalNextMonth(y, m - 1);
    }
  }

  /**
   * Plain day addition: moves n days forward (or -n days back), crossing
   * month and year ends; the result is the date whose day number is n more.
   */
  function AddDays(d: Date, n: int): (r: Date)
    requires Valid(d)
    ensures Valid(r)
    ensures Ordinal(r) == Ordinal(d) + n
    decreases if n >= 0 then n else -n
  {
    var dim := DaysInMonth(d.year, d.month);
    if n == 0 then d
    else if n > 0 then
      if d.day + n <= dim then Date(d.year, d.month, d.day + n)
      else
        OrdinalNextMonth(d.year, d.month);
        AddDays(FirstOfNextMonth(d.year, d.month), n - (dim - d.day + 1))
    else
      if d.day + n >= 1 then Date(d.year, d.month, d.day + n)
      else
        OrdinalPrevMonth(d.year, d.month);
        AddDays(LastOfPrevMonth(d.year, d.month), n + d.day)
  }

  lemma {:induction false} YearsMonotone(a: int, b: int)
    requires a <= b
    ensures DaysBeforeYear(a) <= DaysBeforeYear(b)
    decreases b - a
  {
    if a < b {
      YearStep(a);
      YearsMonotone(a + 1, b);
    }
  }

  lemma MonthsMonotone(y: int, m1: int, m2: int)
    requires 1 <= m1 < m2 <= 12
    ensures DaysBeforeMonth(y, m1) + DaysInMonth(y, m1) <= DaysBeforeMonth(y, m2)
  {
  }

  lemma MonthFitsYear(y: int, m: int)
    requires 1 <= m <= 12
    ensures DaysBeforeMonth(y, m) + DaysInMonth(y, m) <= DaysInYear(y)
  {
  }

  /** Calendar order and day-number order agree: an earlier date has a smaller day number. */
  lemma LessOrdinal(a: Date, b: Date)
    requires Valid(a) && Valid(b) && Less(a, b)
    ensures Ordinal(a) < Ordinal(b)
  {
    if a.year < b.year {
      MonthFitsYear(a.year, a.month);
      YearStep(a.year);
      YearsMonotone(a.year + 1, b.year);
    } else if a.month < b.month {
      MonthsMonotone(a.year, a.month, b.month);
    }
  }

  /**
   * The day number is a faithful encoding of valid dates: it orders them as
   * the calendar does, and two valid dates with one number are one date.
   */
  lemma OrdinalOrder(a: Date, b: Date)
    requires Valid(a) && Valid(b)
    ensures LessEq(a, b) <==> Ordinal(a) <= Ordinal(b)
    ensures Less(a, b) <==> Ordinal(a) < Ordinal(b)
    ensures a == b <==> Ordinal(a) == Ordinal(b)
  {
    if Less(a, b) {
      LessOrdinal(a, b);
    } else if Less(b, a) {
      LessOrdinal(b, a);
    }
  }

  /** Adding days advances the weekday by the same amount, modulo seven. */
  lemma WeekdayAddDays(d: Date, n: int)
    requires Valid(d)
    ensures Weekday(AddDays(d, n)) == (Weekday(d) + n) % 7
  {
    var x := Ordinal(d) + 6;
    var q := x / 7;
    assert x == 7 * q + x % 7;
    assert x + n == 7 * q + (x % 7 + n);
    ModShift(x % 7 + n, q);
  }

  lemma ModShift(a: int, q: int)
    ensures (7 * q + a) % 7 == a % 7
  {
  }

  /** Adding m days and then n days is adding m + n days. */
  lemma AddDaysCompose(d: Date, m: int, n: int)
    requires Valid(d)
    ensures AddDays(AddDays(d, m), n) == AddDays(d, m + n)
  {
    OrdinalOrder(AddDays(AddDays(d, m), n), AddDays(d, m + n));
  }

  /** Adding a non-negative number of days never moves a date earlier. */
  lemma AddDaysOrder(d: Date, m: int, n: int)
    requires Valid(d)
    ensures LessEq(AddDays(d, m), AddDays(d, n)) <==> m <= n
  {
    OrdinalOrder(AddDays(d, m), AddDays(d, n));
  }

  /** A valid date whose day number is n more than d's is the date n days after d. */
  lemma AddDaysByOrdinal(d: Date, n: int, e: Date)
    requires Valid(d) && Valid(e) && Ordinal(e) == Ordinal(d) + n
    ensures AddDays(d, n) == e
  {
    OrdinalOrder(AddDays(d, n), e);
  }
}
