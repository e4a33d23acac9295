/**
 * Calendar-safe date arithmetic: shift by whole months (years count as
 * twelve months) with the day clamped to the end of the target month,
 * then add plain days, which may roll over month and year ends.
 */
module Delta {
  import opened Calendar

  /** Months counted from January of year 0; consecutive months have consecutive numbers. */
  function MonthIndex(d: Date): int {
    d.year * 12 + d.month - 1
  }

  /**
   * Moves d by k months: the result lies k months later (earlier when k < 0),
   * keeps the day of month when that month has it, and otherwise falls on
   * that month's last day.
   */
  function ShiftMonths(d: Date, k: int): (r: Date)
    requires Valid(d)
    ensures Valid(r)
    ensures MonthIndex(r) == MonthIndex(d) + k
    ensures r.day == if d.day <= DaysInMonth(r.year, r.month) then d.day else DaysInMonth(r.year, r.month)
  {
    var i := d.month - 1 + k;
    var y := d.year + i / 12;
    var m := i % 12 + 1;
    var dim := DaysInMonth(y, m);
    Date(y, m, if d.day <= dim then d.day else dim)
  }

  /**
   * delta_date on calendar dates: the combined month offset years * 12 + months
   * is applied first, with clamping, and the day offset after it.
   */
  function DeltaDate(d: Date, years: int, months: int, days: int): (r: Date)
    requires Valid(d)
    ensures Valid(r)
  {
    AddDays(ShiftMonths(d, years * 12 + months), days)
  }

  /** A month index names exactly one (year, month) pair. */
  lemma MonthIndexInjective(a: Date, b: Date)
    requires Valid(a) && Valid(b)
    ensures MonthIndex(a) == MonthIndex(b) <==> a.year == b.year && a.month == b.month
    ensures MonthIndex(a) < MonthIndex(b) <==> a.year < b.year || (a.year == b.year && a.month < b.month)
  {
  }

  /** A day offset alone is plain day addition: the day number moves by exactly that much. */
  lemma DeltaDays(d: Date, n: int)
    requires Valid(d)
    ensures DeltaDate(d, 0, 0, n) == AddDays(d, n)
    ensures Ordinal(DeltaDate(d, 0, 0, n)) == Ordinal(d) + n
  {
    var s := ShiftMonths(d, 0);
    MonthIndexInjective(s, d);
  }

  /** A month offset alone lands k months away with the day clamped to that month's end. */
  lemma DeltaMonths(d: Date, k: int)
    requires Valid(d)
    ensures var r := DeltaDate(d, 0, k, 0);
      && MonthIndex(r) == MonthIndex(d) + k
      && r.day == (if d.day <= DaysInMonth(r.year, r.month) then d.day else DaysInMonth(r.year, r.month))
  {
  }

  /** A year offset is the same shift as twelve times as many months. */
  lemma DeltaYears(d: Date, y: int)
    requires Valid(d)
    ensures DeltaDate(d, y, 0, 0) == DeltaDate(d, 0, 12 * y, 0)
    ensures MonthIndex(DeltaDate(d, y, 0, 0)) == MonthIndex(d) + 12 * y
  {
  }

  /**
   * Years and months together make one month offset, clamped once: the date
   * lands years * 12 + months months away, keeping its day when that month
   * has it and otherwise taking the month's last day.
   */
  lemma DeltaCombined(d: Date, years: int, months: int)
    requires Valid(d)
    ensures var r := DeltaDate(d, years, months, 0);
      && MonthIndex(r) == MonthIndex(d) + 12 * years + months
      && r.day == (if d.day <= DaysInMonth(r.year, r.month) then d.day else DaysInMonth(r.year, r.month))
  {
    var s := ShiftMonths(d, years * 12 + months);
    assert AddDays(s, 0) == s by {
      OrdinalOrder(AddDays(s, 0), s);
    }
  }

  /**
   * The single clamp is visible on a leap day: 2020-02-29 plus one year and
   * one month is 2021-03-29, where clamping after the year (to 2021-02-28)
   * and again after the month would give 2021-03-28.
   */
  lemma DeltaLeapDayYearAndMonth()
    ensures DeltaDate(Date(2020, 2, 29), 1, 1, 0) == Date(2021, 3, 29)
    ensures ShiftMonths(ShiftMonths(Date(2020, 2, 29), 12), 1) == Date(2021, 3, 28)
  {
    DeltaCombined(Date(2020, 2, 29), 1, 1);
    var r := DeltaDate(Date(2020, 2, 29), 1, 1, 0);
    MonthIndexInjective(r, Date(2021, 3, 29));
    var a := ShiftMonths(Date(2020, 2, 29), 12);
    MonthIndexInjective(a, Date(2021, 2, 28));
    MonthIndexInjective(ShiftMonths(a, 1), Date(2021, 3, 28));
  }

  /** A day offset after a month shift is never re-clamped: it counts from the clamped date. */
  lemma DeltaDaysAfterMonths(d: Date, years: int, months: int, days: int)
    requires Valid(d)
    ensures Ordinal(DeltaDate(d, years, months, days)) == Ordinal(DeltaDate(d, years, months, 0)) + days
  {
  }

  /** Shifting by zero months leaves a date unchanged. */
  lemma ShiftMonthsZero(d: Date)
    requires Valid(d)
    ensures ShiftMonths(d, 0) == d
  {
    MonthIndexInjective(ShiftMonths(d, 0), d);
  }

  /** The contract of ShiftMonths determines its result: any valid date k months on, clamped the same way, is it. */
  lemma ShiftMonthsByIndex(d: Date, k: int, e: Date)
    requires Valid(d) && Valid(e) && MonthIndex(e) == MonthIndex(d) + k
    requires e.day == if d.day <= DaysInMonth(e.year, e.month) then d.day else DaysInMonth(e.year, e.month)
    ensures ShiftMonths(d, k) == e
  {
    MonthIndexInjective(ShiftMonths(d, k), e);
  }

  /** A day that every month has survives a shift and its reverse: the round trip returns the date. */
  lemma ShiftMonthsRoundTrip(d: Date, k: int)
    requires Valid(d) && d.day <= 28
    ensures ShiftMonths(ShiftMonths(d, k), -k) == d
  {
    var r := ShiftMonths(ShiftMonths(d, k), -k);
    MonthIndexInjective(r, d);
  }

  /** A larger month offset never gives an earlier date. */
  lemma ShiftMonthsMonotone(d: Date, j: int, k: int)
    requires Valid(d) && j <= k
    ensures LessEq(ShiftMonths(d, j), ShiftMonths(d, k))
  {
    var a, b := ShiftMonths(d, j), ShiftMonths(d, k);
    MonthIndexInjective(a, b);
    if j == k {
      assert a == b;
    }
  }
}
