/**
 * The phrase grammar, over tokens and calendar dates. A reference phrase
 * names one date relative to a reference day; a period phrase names a
 * run of days from a start to an end.
 */
module Parser {
  import opened Wrappers
  import opened Calendar
  import opened Boundaries
  import opened Delta
  import opened SmartDates
  import opened Phrases

  /** Moves d by k units: days and weeks by plain day addition, months, quarters and years by clamped month shifts. */
  function Shift(d: Date, u: Unit, k: int): (r: Date)
    requires Valid(d)
    ensures Valid(r)
  {
    match u
    case Day => AddDays(d, k)
    case Week => AddDays(d, 7 * k)
    case Month => DeltaDate(d, 0, k, 0)
    case Quarter => DeltaDate(d, 0, 3 * k, 0)
    case Year => DeltaDate(d, k, 0, 0)
  }

  /** A larger offset never gives an earlier date, whatever the unit. */
  lemma ShiftMonotone(d: Date, u: Unit, j: int, k: int)
    requires Valid(d) && j <= k
    ensures LessEq(Shift(d, u, j), Shift(d, u, k))
  {
    match u
    case Day => AddDaysOrder(d, j, k);
    case Week => AddDaysOrder(d, 7 * j, 7 * k);
    case Month => ShiftMonthsMonotone(d, j, k);
    case Quarter => ShiftMonthsMonotone(d, 3 * j, 3 * k);
    case Year => ShiftMonthsMonotone(d, 12 * j, 12 * k);
  }

  /** Day and week shifts move the day number by exactly that many days. */
  lemma ShiftDays(d: Date, u: Unit, k: int)
    requires Valid(d) && (u.Day? || u.Week?)
    ensures Ordinal(Shift(d, u, k)) == Ordinal(d) + (if u.Day? then k else 7 * k)
  {
  }

  /** Month, quarter and year shifts move the month by k, 3k or 12k and clamp the day. */
  lemma ShiftMonthsOf(d: Date, u: Unit, k: int)
    requires Valid(d) && (u.Month? || u.Quarter? || u.Year?)
    ensures var months := if u.Month? then k else if u.Quarter? then 3 * k else 12 * k;
      Shift(d, u, k) == ShiftMonths(d, months)
  {
    var months := if u.Month? then k else if u.Quarter? then 3 * k else 12 * k;
    ShiftMonthsZero(ShiftMonths(d, months));
  }

  /** A quarter shift of a quarter's first month lands on a quarter's first month. */
  lemma QuarterShiftAligned(s: Date, k: int)
    requires Valid(s) && s.month % 3 == 1
    ensures Shift(s, Quarter, k).month % 3 == 1
  {
    ShiftMonthsOf(s, Quarter, k);
    var a := Shift(s, Quarter, k);
    var t := (s.month - 1) / 3;
    assert s.month - 1 == 3 * t;
    assert a.year * 12 + a.month - 1 == s.year * 12 + 3 * t + 3 * k;
    assert a.month - 1 == 3 * (4 * (s.year - a.year) + t + k);
  }

  /** parse_reference on tokens: a keyword, a literal date, or `<cardinal> <unit> ago`. */
  function Reference(ws: seq<string>, ref: Date): (r: Option<Date>)
    requires Valid(ref)
    ensures r.Some? ==> Valid(r.value)
    ensures r.Some? ==>
      || (|ws| == 1 && (ws[0] in {"today", "yesterday", "tomorrow"} || ParseIso(ws[0]).Some?))
      || (|ws| == 3 && ws[2] == "ago" && Cardinal(ws[0]).Some? && UnitWord(ws[1]).Some?)
  {
    if |ws| == 1 then
      if ws[0] == "today" then Some(ref)
      else if ws[0] == "yesterday" then Some(AddDays(ref, -1))
      else if ws[0] == "tomorrow" then Some(AddDays(ref, 1))
      else ParseIso(ws[0])
    else if |ws| == 3 && ws[2] == "ago" then
      var n :- Cardinal(ws[0]);
      var u :- UnitWord(ws[1]);
      Some(Shift(ref, u, -(n as int)))
    else None
  }

  /** The keywords name the reference day and the days just before and after it. */
  lemma ReferenceKeywordDays(ref: Date)
    requires Valid(ref)
    ensures Reference(["today"], ref) == Some(ref)
    ensures Reference(["yesterday"], ref).Some? && Ordinal(Reference(["yesterday"], ref).value) == Ordinal(ref) - 1
    ensures Reference(["tomorrow"], ref).Some? && Ordinal(Reference(["tomorrow"], ref).value) == Ordinal(ref) + 1
  {
  }

  /** "<cardinal> <unit> ago" goes that many units back from the reference. */
  lemma ReferenceAgoShift(c: string, unit: string, ref: Date)
    requires Valid(ref) && Cardinal(c).Some? && UnitWord(unit).Some?
    ensures Reference([c, unit, "ago"], ref) == Some(Shift(ref, UnitWord(unit).value, -(Cardinal(c).value as int)))
  {
  }

  /**
   * "this <unit>": from the start of the unit's period up to the day before
   * the reference; when the reference is itself the first day of the period
   * there is no earlier day and the period is that single day.
   */
  function This(u: Unit, ref: Date): (p: SmartPeriod)
    requires Valid(ref)
    ensures Valid(p.start) && Valid(p.end) && LessEq(p.start, p.end) && LessEq(p.end, ref)
    ensures p.start == Start(u, ref)
    ensures p.end == ref <==> Start(u, ref) == ref
    ensures p.end != ref ==> Ordinal(p.end) + 1 == Ordinal(ref)
  {
    var s := Start(u, ref);
    if s == ref then SmartPeriod(ref, ref)
    else
      var e := AddDays(ref, -1);
      OrdinalOrder(s, ref);
      OrdinalOrder(s, e);
      OrdinalOrder(e, ref);
      SmartPeriod(s, e)
  }

  /** "last <unit>" (k = -1) and "next <unit>" (k = 1): the whole period k periods away from the reference's. */
  function Adjacent(u: Unit, ref: Date, k: int): (p: SmartPeriod)
    requires Valid(ref)
    ensures Valid(p.start) && Valid(p.end) && LessEq(p.start, p.end)
  {
    var a := Shift(Start(u, ref), u, k);
    Containment(u, a);
    SmartPeriod(Start(u, a), End(u, a))
  }

  /** "between a and b <unit> ago": the two offsets from the reference, earlier one first. */
  function Between(ref: Date, u: Unit, a: nat, b: nat): (p: SmartPeriod)
    requires Valid(ref)
    ensures Valid(p.start) && Valid(p.end) && LessEq(p.start, p.end)
  {
    var x, y := Shift(ref, u, -(a as int)), Shift(ref, u, -(b as int));
    OrdinalOrder(x, y);
    SmartPeriod(Min(x, y), Max(x, y))
  }

  /**
   * parse_period on tokens. Only "this/last/next <unit>" and
   * "between <a> and <b> <unit> ago" are accepted, and every period
   * accepted is a run of valid days with start <= end.
   */
  function Period(ws: seq<string>, ref: Date): (r: Option<SmartPeriod>)
    requires Valid(ref)
    ensures r.Some? ==> Valid(r.value.start) && Valid(r.value.end) && LessEq(r.value.start, r.value.end)
    ensures r.Some? ==>
      || (|ws| == 2 && ws[0] in {"this", "last", "next"} && UnitWord(ws[1]).Some?)
      || (|ws| == 6 && ws[0] == "between" && ws[2] == "and" && ws[5] == "ago"
          && Cardinal(ws[1]).Some? && Cardinal(ws[3]).Some? && UnitWord(ws[4]).Some?)
  {
    if |ws| == 2 && ws[0] in {"this", "last", "next"} then
      var u :- UnitWord(ws[1]);
      if ws[0] == "this" then Some(This(u, ref))
      else if ws[0] == "last" then Some(Adjacent(u, ref, -1))
      else Some(Adjacent(u, ref, 1))
    else if |ws| == 6 && ws[0] == "between" && ws[2] == "and" && ws[5] == "ago" then
      var a :- Cardinal(ws[1]);
      var b :- Cardinal(ws[3]);
      var u :- UnitWord(ws[4]);
      Some(Between(ref, u, a, b))
    else None
  }

  /** "this <unit>" names the current period of that unit, up to the day before the reference. */
  lemma PeriodThisWords(unit: string, ref: Date)
    requires Valid(ref) && UnitWord(unit).Some?
    ensures Period(["this", unit], ref) == Some(This(UnitWord(unit).value, ref))
  {
  }

  /** "last <unit>" and "next <unit>" name the previous (k = -1) and the following (k = 1) period of that unit. */
  lemma PeriodAdjacentWords(w: string, unit: string, u: Unit, k: int, ref: Date)
    requires Valid(ref) && UnitWord(unit) == Some(u)
    requires (w == "last" && k == -1) || (w == "next" && k == 1)
    ensures Period([w, unit], ref) == Some(Adjacent(u, ref, k))
  {
  }

  /** "between <a> and <b> <unit> ago" takes both cardinals as offsets back from the reference. */
  lemma PeriodBetweenWords(a: string, b: string, unit: string, ref: Date)
    requires Valid(ref) && Cardinal(a).Some? && Cardinal(b).Some? && UnitWord(unit).Some?
    ensures Period(["between", a, "and", b, unit, "ago"], ref)
         == Some(Between(ref, UnitWord(unit).value, Cardinal(a).value, Cardinal(b).value))
  {
  }

  lemma IsLastOfPrevMonth(x: Date, y: int, m: int)
    requires Valid(x) && 1 <= m <= 12 && x.day == DaysInMonth(x.year, x.month)
    requires MonthIndex(x) + 1 == MonthIndex(Date(y, m, 1))
    ensures x == LastOfPrevMonth(y, m)
  {
  }

  /** A Monday is its own week start. */
  lemma MondayStartsWeek(d: Date)
    requires Valid(d) && Weekday(d) == 0
    ensures Start(Week, d) == d
  {
  }

  /** Whole weeks away from a Monday is a Monday, which starts its own week. */
  lemma MondayShift(s: Date, k: int)
    requires Valid(s) && Weekday(s) == 0
    ensures Start(Week, AddDays(s, 7 * k)) == AddDays(s, 7 * k)
  {
    var a := AddDays(s, 7 * k);
    WeekdayAddDays(s, 7 * k);
    assert Weekday(a) == (7 * k) % 7;
    ModShift(0, k);
    MondayStartsWeek(a);
  }

  lemma LastWeek(ref: Date)
    requires Valid(ref)
    ensures Ordinal(Adjacent(Week, ref, -1).end) + 1 == Ordinal(Start(Week, ref))
  {
    var s := Start(Week, ref);
    var a := AddDays(s, 7 * -1);
    assert Adjacent(Week, ref, -1).end == End(Week, a);
    MondayShift(s, -1);
    WeekSpansSevenDays(a);
  }

  lemma NextWeek(ref: Date)
    requires Valid(ref)
    ensures Ordinal(Adjacent(Week, ref, 1).start) == Ordinal(End(Week, ref)) + 1
  {
    var s := Start(Week, ref);
    var a := AddDays(s, 7 * 1);
    assert Adjacent(Week, ref, 1).start == Start(Week, a);
    MondayShift(s, 1);
    WeekSpansSevenDays(ref);
  }

  /** The month-based period before a period start s ends on the last day of the month before s. */
  lemma EndBeforeMonthStart(u: Unit, s: Date)
    requires Valid(s) && (u.Month? || u.Quarter? || u.Year?) && Start(u, s) == s
    ensures Ordinal(End(u, Shift(s, u, -1))) + 1 == Ordinal(s)
  {
    var a := Shift(s, u, -1);
    ShiftMonthsOf(s, u, -1);
    var e := End(u, a);
    assert MonthIndex(e) + 1 == MonthIndex(s) by {
      if u.Quarter? {
        QuarterShiftAligned(s, -1);
      }
    }
    IsLastOfPrevMonth(e, s.year, s.month);
    OrdinalPrevMonth(s.year, s.month);
  }

  /** For months, quarters and years the period before ends on the day before the current start. */
  lemma LastByMonths(u: Unit, ref: Date)
    requires Valid(ref) && (u.Month? || u.Quarter? || u.Year?)
    ensures Ordinal(Adjacent(u, ref, -1).end) + 1 == Ordinal(Start(u, ref))
  {
    var s := Start(u, ref);
    StartIdempotent(u, ref);
    EndBeforeMonthStart(u, s);
  }

  /** The month after the reference's starts on the first day of the next month. */
  lemma NextMonthStart(ref: Date)
    requires Valid(ref)
    ensures Start(Month, Shift(Start(Month, ref), Month, 1)) == FirstOfNextMonth(ref.year, ref.month)
  {
    var s := Start(Month, ref);
    ShiftMonthsOf(s, Month, 1);
    ShiftMonthsByIndex(s, 1, FirstOfNextMonth(ref.year, ref.month));
  }

  /** The quarter after the reference's starts on the first day of the month after its last month. */
  lemma NextQuarterStart(ref: Date)
    requires Valid(ref)
    ensures Start(Quarter, Shift(Start(Quarter, ref), Quarter, 1)) == FirstOfNextMonth(ref.year, QuarterLastMonth(ref.month))
  {
    var s := Start(Quarter, ref);
    var n := FirstOfNextMonth(ref.year, QuarterLastMonth(ref.month));
    ShiftMonthsOf(s, Quarter, 1);
    ShiftMonthsByIndex(s, 3, n);
    assert n.month == 1 || n.month == 4 || n.month == 7 || n.month == 10;
  }

  /** The year after the reference's starts on the first of January after it. */
  lemma NextYearStart(ref: Date)
    requires Valid(ref)
    ensures Start(Year, Shift(Start(Year, ref), Year, 1)) == FirstOfNextMonth(ref.year, 12)
  {
    var s := Start(Year, ref);
    ShiftMonthsOf(s, Year, 1);
    ShiftMonthsByIndex(s, 12, FirstOfNextMonth(ref.year, 12));
  }

  /** For months, quarters and years the period after starts on the first day of the month after the current end. */
  lemma NextByMonths(u: Unit, ref: Date)
    requires Valid(ref) && (u.Month? || u.Quarter? || u.Year?)
    ensures Ordinal(Adjacent(u, ref, 1).start) == Ordinal(End(u, ref)) + 1
  {
    var e := End(u, ref);
    match u {
      case Month => NextMonthStart(ref);
      case Quarter => NextQuarterStart(ref);
      case Year => NextYearStart(ref);
    }
    assert Adjacent(u, ref, 1).start == FirstOfNextMonth(e.year, e.month);
    assert e == Date(e.year, e.month, DaysInMonth(e.year, e.month));
    OrdinalNextMonth(e.year, e.month);
  }

  /**
   * "last <unit>" is the whole calendar period just before the reference's:
   * it ends on the day before the current period starts, and it begins on
   * the first day of the period containing that end.
   */
  lemma LastIsPrevious(u: Unit, ref: Date)
    requires Valid(ref)
    ensures var p := Adjacent(u, ref, -1);
      && Ordinal(p.end) + 1 == Ordinal(Start(u, ref))
      && p.start == Start(u, p.end)
      && p.end == End(u, p.start)
  {
    SamePeriod(u, Shift(Start(u, ref), u, -1));
    if u.Week? {
      LastWeek(ref);
    } else if !u.Day? {
      LastByMonths(u, ref);
    }
  }

  /**
   * "next <unit>" is the whole calendar period just after the reference's:
   * it starts on the day after the current period ends, and it ends on the
   * last day of the period containing that start.
   */
  lemma NextIsFollowing(u: Unit, ref: Date)
    requires Valid(ref)
    ensures var p := Adjacent(u, ref, 1);
      && Ordinal(p.start) == Ordinal(End(u, ref)) + 1
      && p.end == End(u, p.start)
      && p.start == Start(u, p.end)
  {
    SamePeriod(u, Shift(Start(u, ref), u, 1));
    if u.Week? {
      NextWeek(ref);
    } else if !u.Day? {
      NextByMonths(u, ref);
    }
  }

  lemma MinMaxOrdered(x: Date, y: Date)
    requires LessEq(x, y)
    ensures Min(x, y) == x && Max(x, y) == y
  {
  }

  /** With the larger offset first, "between a and b <unit> ago" runs from a units back to b units back. */
  lemma BetweenAgo(ref: Date, u: Unit, a: nat, b: nat)
    requires Valid(ref) && a >= b
    ensures Between(ref, u, a, b) == SmartPeriod(Shift(ref, u, -(a as int)), Shift(ref, u, -(b as int)))
  {
    ShiftMonotone(ref, u, -(a as int), -(b as int));
    MinMaxOrdered(Shift(ref, u, -(a as int)), Shift(ref, u, -(b as int)));
  }
}
