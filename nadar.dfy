/**
 * The library's public functions: get_start, get_end, delta_date,
 * parse_reference and parse_period. Each takes dates as callers hold them
 * (strings, native dates or SmartDates), works on the calendar date inside
 * and, where it derives a date from a date argument, answers in that
 * argument's kind. A result outside the years 1..9999 is a failure, as an
 * overflowing Python date is.
 */
module Nadar {
  import opened Wrappers
  import opened Calendar
  import opened Boundaries
  import Delta
  import opened SmartDates
  import opened Phrases
  import Parser

  /** The period names get_start and get_end accept. */
  function ParseKind(kind: string): (r: Option<Unit>)
    ensures r.Some? <==> kind == "year" || kind == "quarter" || kind == "month" || kind == "week"
    ensures kind == "year" ==> r == Some(Year)
    ensures kind == "quarter" ==> r == Some(Quarter)
    ensures kind == "month" ==> r == Some(Month)
    ensures kind == "week" ==> r == Some(Week)
    ensures r.Some? ==> !r.value.Day?
  {
    if kind == "year" then Some(Year)
    else if kind == "quarter" then Some(Quarter)
    else if kind == "month" then Some(Month)
    else if kind == "week" then Some(Week)
    else None
  }

  /** A Monday-to-Sunday week never starts before 0001-01-01, itself a Monday. */
  lemma WeekStartInRange(d: Date)
    requires InRange(d)
    ensures Start(Week, d).year >= MinYear
  {
    var s := Start(Week, d);
    if s.year < MinYear {
      OrdinalOrder(s, Date(1, 1, 1));
      OrdinalOrder(Date(1, 2, 1), d);
      assert false;
    }
  }

  /** get_start: the first day of the named period containing the date, in the date's own kind. */
  function GetStart(kind: string, v: Value): (r: Option<Value>)
    ensures r.Some? <==> ParseKind(kind).Some? && Of(v).Some?
    ensures r.Some? ==> KindOf(r.value) == KindOf(v)
    ensures r.Some? ==> Of(r.value).Some? && Of(r.value).value.date == Start(ParseKind(kind).value, Of(v).value.date)
  {
    var u :- ParseKind(kind);
    var dv :- Of(v);
    if u == Week then WeekStartInRange(dv.date); Echo(Start(u, dv.date), dv.repr)
    else Echo(Start(u, dv.date), dv.repr)
  }

  /** get_end: the last day of the named period containing the date, in the date's own kind. */
  function GetEnd(kind: string, v: Value): (r: Option<Value>)
    ensures r.Some? <==> ParseKind(kind).Some? && Of(v).Some? && End(ParseKind(kind).value, Of(v).value.date).year <= MaxYear
    ensures r.Some? ==> KindOf(r.value) == KindOf(v)
    ensures r.Some? ==> Of(r.value).Some? && Of(r.value).value.date == End(ParseKind(kind).value, Of(v).value.date)
  {
    var u :- ParseKind(kind);
    var dv :- Of(v);
    Echo(End(u, dv.date), dv.repr)
  }

  /** delta_date: months (years as twelve months) with clamping, then days, in the date's own kind. */
  function DeltaDate(v: Value, years: int, months: int, days: int): (r: Option<Value>)
    ensures r.Some? <==> Of(v).Some? && MinYear <= Delta.DeltaDate(Of(v).value.date, years, months, days).year <= MaxYear
    ensures r.Some? ==> KindOf(r.value) == KindOf(v)
    ensures r.Some? ==> Of(r.value).Some? && Of(r.value).value.date == Delta.DeltaDate(Of(v).value.date, years, months, days)
  {
    var dv :- Of(v);
    Echo(Delta.DeltaDate(dv.date, years, months, days), dv.repr)
  }

  /** parse_reference: the date a phrase names relative to the reference, as a SmartDate. */
  function ParseReference(text: string, reference: Value): (r: Option<Value>)
    ensures r.Some? ==> r.value.SmartValue? && InRange(r.value.date)
    ensures r.Some? <==>
      (&& Of(reference).Some?
       && Parser.Reference(Tokenize(text), Of(reference).value.date).Some?
       && MinYear <= Parser.Reference(Tokenize(text), Of(reference).value.date).value.year <= MaxYear)
    ensures r.Some? ==> Parser.Reference(Tokenize(text), Of(reference).value.date) == Some(r.value.date)
  {
    var dv :- Of(reference);
    var d :- Parser.Reference(Tokenize(text), dv.date);
    Echo(d, Smart)
  }

  /** parse_period: the period a phrase names relative to the reference, as a pair of SmartDates. */
  function ParsePeriod(text: string, reference: Value): (r: Option<SmartPeriod>)
    ensures r.Some? ==> InRange(r.value.start) && InRange(r.value.end) && LessEq(r.value.start, r.value.end)
    ensures r.Some? <==>
      (&& Of(reference).Some?
       && Parser.Period(Tokenize(text), Of(reference).value.date).Some?
       && InRange(Parser.Period(Tokenize(text), Of(reference).value.date).value.start)
       && InRange(Parser.Period(Tokenize(text), Of(reference).value.date).value.end))
    ensures r.Some? ==> Parser.Period(Tokenize(text), Of(reference).value.date) == Some(r.value)
  {
    var dv :- Of(reference);
    var p :- Parser.Period(Tokenize(text), dv.date);
    if InRange(p.start) && InRange(p.end) then Some(p) else None
  }

  /** get_start answers in the kind it was asked in: a date rendered in kind k gives its period start rendered in k. */
  lemma GetStartEcho(kind: string, d: Date, k: Repr)
    requires InRange(d) && ParseKind(kind).Some?
    ensures InRange(Start(ParseKind(kind).value, d))
    ensures GetStart(kind, Render(d, k)) == Some(Render(Start(ParseKind(kind).value, d), k))
  {
    OfRender(d, k);
    var r := GetStart(kind, Render(d, k)).value;
    RenderOf(r);
  }

  /** get_end answers in the kind it was asked in, whenever the end is a year a date can hold. */
  lemma GetEndEcho(kind: string, d: Date, k: Repr)
    requires InRange(d) && ParseKind(kind).Some? && End(ParseKind(kind).value, d).year <= MaxYear
    ensures InRange(End(ParseKind(kind).value, d))
    ensures GetEnd(kind, Render(d, k)) == Some(Render(End(ParseKind(kind).value, d), k))
  {
    OfRender(d, k);
    var r := GetEnd(kind, Render(d, k)).value;
    RenderOf(r);
  }

  /** delta_date answers in the kind it was asked in, whenever the result is a year a date can hold. */
  lemma DeltaDateEcho(d: Date, k: Repr, years: int, months: int, days: int)
    requires InRange(d) && MinYear <= Delta.DeltaDate(d, years, months, days).year <= MaxYear
    ensures InRange(Delta.DeltaDate(d, years, months, days))
    ensures DeltaDate(Render(d, k), years, months, days) == Some(Render(Delta.DeltaDate(d, years, months, days), k))
  {
    OfRender(d, k);
    var r := DeltaDate(Render(d, k), years, months, days).value;
    RenderOf(r);
  }

  /** In every kind, the start and the end of a period bracket the date: start <= date <= end. */
  lemma GetBoundsContain(kind: string, v: Value)
    requires GetStart(kind, v).Some? && GetEnd(kind, v).Some?
    ensures var d := Of(v).value.date;
      LessEq(Of(GetStart(kind, v).value).value.date, d) && LessEq(d, Of(GetEnd(kind, v).value).value.date)
  {
    Containment(ParseKind(kind).value, Of(v).value.date);
  }

  /** get_start of a period start is that start, and get_end of a period end is that end, in every kind. */
  lemma GetBoundsIdempotent(kind: string, v: Value)
    ensures GetStart(kind, v).Some? ==> GetStart(kind, GetStart(kind, v).value) == GetStart(kind, v)
    ensures GetEnd(kind, v).Some? ==> GetEnd(kind, GetEnd(kind, v).value) == GetEnd(kind, v)
  {
    if GetStart(kind, v).Some? {
      var u, d := ParseKind(kind).value, Of(v).value.date;
      var s := GetStart(kind, v).value;
      StartIdempotent(u, d);
      RenderOf(s);
      RenderOf(GetStart(kind, s).value);
    }
    if GetEnd(kind, v).Some? {
      var u, d := ParseKind(kind).value, Of(v).value.date;
      var e := GetEnd(kind, v).value;
      EndIdempotent(u, d);
      RenderOf(e);
      RenderOf(GetEnd(kind, e).value);
    }
  }

  lemma TokenizeWord(w: string)
    requires IsWord(w)
    ensures Tokenize(w) == [w]
  {
    TokenizeJoin([w]);
  }

  /** A written date is read literally, whatever the reference. */
  lemma ReferenceLiteral(d: Date, reference: Value)
    requires InRange(d) && Of(reference).Some?
    ensures ParseReference(FormatIso(d), reference) == Some(SmartValue(d))
  {
    var s := FormatIso(d);
    assert forall i :: 0 <= i < |s| ==> !IsSpace(s[i]) && !IsUpper(s[i]) by {
      DigitsNoSpace(d);
    }
    TokenizeWord(s);
    ParseFormat(d);
  }

  lemma DigitsNoSpace(d: Date)
    requires InRange(d)
    ensures forall i :: 0 <= i < |FormatIso(d)| ==> !IsSpace(FormatIso(d)[i]) && !IsUpper(FormatIso(d)[i])
  {
    var s := FormatIso(d);
    forall i | 0 <= i < |s|
      ensures !IsSpace(s[i]) && !IsUpper(s[i])
    {
      if i < 4 {
        assert s[i] == s[..4][i];
      } else if 4 < i < 7 {
        assert s[i] == s[5..7][i - 5];
      } else if 7 < i {
        assert s[i] == s[8..][i - 8];
      }
    }
  }
}
