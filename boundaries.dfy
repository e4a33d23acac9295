/**
 * Period boundaries: the first and the last day of the calendar year,
 * quarter, month, week (Monday to Sunday) or day that contains a date.
 * Quarters are the fixed three-month blocks beginning in January, April,
 * July and October.
 */
module Boundaries {
  import opened Calendar

  datatype Unit = Day | Week | Month | Quarter | Year

  /** First month of the quarter holding month m: 1, 4, 7 or 10. */
  function QuarterFirstMonth(m: int): (q: int)
    requires 1 <= m <= 12
    ensures q % 3 == 1 && q <= m < q + 3 && 1 <= q <= 10
  {
    (m - 1) / 3 * 3 + 1
  }

  /** Last month of the quarter holding month m: 3, 6, 9 or 12. */
  function QuarterLastMonth(m: int): (q: int)
    requires 1 <= m <= 12
    ensures q % 3 == 0 && q - 3 < m <= q && 3 <= q <= 12
  {
    QuarterFirstMonth(m) + 2
  }

  /** The first day of the period of kind u that contains d. */
  function Start(u: Unit, d: Date): (r: Date)
    requires Valid(d)
    ensures Valid(r) && LessEq(r, d)
    ensures u.Year? ==> r.year == d.year && r.month == 1 && r.day == 1
    ensures u.Quarter? ==> r.year == d.year && r.month % 3 == 1 && r.month <= d.month < r.month + 3 && r.day == 1
    ensures u.Month? ==> r.year == d.year && r.month == d.month && r.day == 1
    ensures u.Week? ==> Weekday(r) == 0 && 0 <= Ordinal(d) - Ordinal(r) < 7
    ensures u.Day? ==> r == d
  {
    match u
    case Day => d
    case Week =>
      WeekdayAddDays(d, -Weekday(d));
      AddDaysOrder(d, -Weekday(d), 0);
      AddDays(d, -Weekday(d))
    case Month => Date(d.year, d.month, 1)
    case Quarter => Date(d.year, QuarterFirstMonth(d.month), 1)
    case Year => Date(d.year, 1, 1)
  }

  /** The last day of the period of kind u that contains d. */
  function End(u: Unit, d: Date): (r: Date)
    requires Valid(d)
    ensures Valid(r) && LessEq(d, r)
    ensures u.Year? ==> r.year == d.year && r.month == 12 && r.day == 31
    ensures u.Quarter? ==> r.year == d.year && r.month % 3 == 0 && r.month - 3 < d.month <= r.month
                           && r.day == DaysInMonth(r.year, r.month)
    ensures u.Month? ==> r.year == d.year && r.month == d.month && r.day == DaysInMonth(d.year, d.month)
    ensures u.Week? ==> Weekday(r) == 6 && 0 <= Ordinal(r) - Ordinal(d) < 7
    ensures u.Day? ==> r == d
  {
    match u
    case Day => d
    case Week => WeekEnd(d)
    case Month => Date(d.year, d.month, DaysInMonth(d.year, d.month))
    case Quarter => Date(d.year, QuarterLastMonth(d.month), DaysInMonth(d.year, QuarterLastMonth(d.month)))
    case Year => Date(d.year, 12, 31)
  }

  /** The Sunday that closes the week holding d. */
  function WeekEnd(d: Date): (r: Date)
    requires Valid(d)
    ensures Valid(r) && LessEq(d, r)
    ensures Weekday(r) == 6 && 0 <= Ordinal(r) - Ordinal(d) < 7
  {
    var s := Start(Week, d);
    var e := AddDays(s, 6);
    assert Weekday(e) == 6 by {
      WeekdayAddDays(s, 6);
    }
    assert LessEq(d, e) by {
      OrdinalOrder(d, e);
    }
    e
  }

  /** Every period is a run of days from its start to its end: start <= d <= end. */
  lemma Containment(u: Unit, d: Date)
    requires Valid(d)
    ensures LessEq(Start(u, d), d) && LessEq(d, End(u, d))
    ensures LessEq(Start(u, d), End(u, d))
  {
    OrdinalOrder(Start(u, d), d);
    OrdinalOrder(d, End(u, d));
    OrdinalOrder(Start(u, d), End(u, d));
  }

  /** A week is seven consecutive days from a Monday to the Sunday after it. */
  lemma WeekSpansSevenDays(d: Date)
    requires Valid(d)
    ensures End(Week, d) == AddDays(Start(Week, d), 6)
    ensures Ordinal(End(Week, d)) == Ordinal(Start(Week, d)) + 6
  {
  }

  /** The start of a period lies in the same period: taking the start again changes nothing. */
  lemma StartIdempotent(u: Unit, d: Date)
    requires Valid(d)
    ensures Start(u, Start(u, d)) == Start(u, d)
  {
    if u.Week? {
      var s := Start(Week, d);
      OrdinalOrder(Start(Week, s), s);
    }
  }

  /** The end of a period lies in the same period: taking the end again changes nothing. */
  lemma EndIdempotent(u: Unit, d: Date)
    requires Valid(d)
    ensures End(u, End(u, d)) == End(u, d)
  {
    if u.Week? {
      var e := End(Week, d);
      var s := Start(Week, d);
      OrdinalOrder(Start(Week, e), s);
    }
  }

  /** The start and the end of a period describe that same period. */
  lemma SamePeriod(u: Unit, d: Date)
    requires Valid(d)
    ensures Start(u, End(u, d)) == Start(u, d)
    ensures End(u, Start(u, d)) == End(u, d)
  {
    if u.Week? {
      var e := End(Week, d);
      var s := Start(Week, d);
      OrdinalOrder(Start(Week, e), s);
      StartIdempotent(Week, d);
    }
  }

  /** The week start is the one Monday among the seven days ending at d. */
  lemma WeekStartUnique(d: Date, m: Date)
    requires Valid(d) && Valid(m) && Weekday(m) == 0 && 0 <= Ordinal(d) - Ordinal(m) < 7
    ensures Start(Week, d) == m
  {
    var s := Start(Week, d);
    var i, j := Ordinal(s) + 6, Ordinal(m) + 6;
    assert i == 7 * (i / 7) && j == 7 * (j / 7);
    assert -7 < i - j < 7;
    assert i / 7 == j / 7;
    OrdinalOrder(s, m);
  }

  /** The week end is the Sunday six days after the week's Monday. */
  lemma WeekEndFromStart(d: Date, e: Date)
    requires Valid(d) && Valid(e) && Ordinal(e) == Ordinal(Start(Week, d)) + 6
    ensures End(Week, d) == e
  {
    WeekSpansSevenDays(d);
    OrdinalOrder(End(Week, d), e);
  }
}
