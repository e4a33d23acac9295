/**
 * The date values the library accepts and returns. A date arrives as an
 * ISO string (`YYYY-MM-DD`), as a native date object or as the library's
 * own SmartDate, and every derived date goes back out in the kind it came
 * in ("type echoing"). The calendar date inside is always valid and, as
 * for Python's date type, its year lies in 1..9999.
 */
module SmartDates {
  import opened Wrappers
  import opened Calendar
  import opened Numerals

  /** Which kind of value a date was supplied as. */
  datatype Repr = Str | Native | Smart

  /** A date as a caller holds it: a string, a native date or a SmartDate. */
  datatype Value = StrValue(text: string) | NativeValue(date: Date) | SmartValue(date: Date)

  /** A validated calendar date together with the kind it was supplied as. */
  datatype DateValue = DateValue(date: Date, repr: Repr)

  /** A period from start to end, both SmartDates. */
  datatype SmartPeriod = SmartPeriod(start: Date, end: Date)

  const MinYear := 1
  const MaxYear := 9999

  /** Dates a native date object can hold. */
  predicate InRange(d: Date) {
    Valid(d) && MinYear <= d.year <= MaxYear
  }

  function KindOf(v: Value): Repr {
    match v
    case StrValue(_) => Str
    case NativeValue(_) => Native
    case SmartValue(_) => Smart
  }

  /** Reads a zero-padded `YYYY-MM-DD` string; fails on any other shape or an impossible date. */
  function ParseIso(s: string): (r: Option<Date>)
    ensures r.Some? ==> InRange(r.value)
  {
    if |s| == 10 && s[4] == '-' && s[7] == '-'
       && AllDigits(s[..4]) && AllDigits(s[5..7]) && AllDigits(s[8..])
    then
      var d := Date(DigitsValue(s[..4]), DigitsValue(s[5..7]), DigitsValue(s[8..]));
      if InRange(d) then Some(d) else None
    else None
  }

  /** Writes a date as `YYYY-MM-DD` with a four-digit year. */
  function FormatIso(d: Date): (s: string)
    requires InRange(d)
    ensures |s| == 10 && s[4] == '-' && s[7] == '-'
  {
    Pad(d.year, 4) + "-" + Pad(d.month, 2) + "-" + Pad(d.day, 2)
  }

  /** Formatting a date and parsing the text gives the date back. */
  lemma ParseFormat(d: Date)
    requires InRange(d)
    ensures ParseIso(FormatIso(d)) == Some(d)
  {
    var s := FormatIso(d);
    assert s[..4] == Pad(d.year, 4);
    assert s[5..7] == Pad(d.month, 2);
    assert s[8..] == Pad(d.day, 2);
    DigitsValuePad(d.year, 4);
    DigitsValuePad(d.month, 2);
    DigitsValuePad(d.day, 2);
  }

  /** Only the canonical spelling parses: a string that parses is the formatted date. */
  lemma FormatParse(s: string)
    requires ParseIso(s).Some?
    ensures FormatIso(ParseIso(s).value) == s
  {
    PadDigitsValue(s[..4]);
    PadDigitsValue(s[5..7]);
    PadDigitsValue(s[8..]);
    assert s == s[..4] + "-" + s[5..7] + "-" + s[8..];
  }

  /** Accepts a value of any kind and remembers its kind; fails on a malformed string or an impossible date. */
  function Of(v: Value): (r: Option<DateValue>)
    ensures r.Some? ==> InRange(r.value.date) && r.value.repr == KindOf(v)
  {
    match v
    case StrValue(s) =>
      var d :- ParseIso(s);
      Some(DateValue(d, Str))
    case NativeValue(d) => if InRange(d) then Some(DateValue(d, Native)) else None
    case SmartValue(d) => if InRange(d) then Some(DateValue(d, Smart)) else None
  }

  /** Projects a date back into the requested kind. */
  function Render(d: Date, k: Repr): (v: Value)
    requires InRange(d)
    ensures KindOf(v) == k
  {
    match k
    case Str => StrValue(FormatIso(d))
    case Native => NativeValue(d)
    case Smart => SmartValue(d)
  }

  /** Rendering and reading back gives the same date and kind. */
  lemma OfRender(d: Date, k: Repr)
    requires InRange(d)
    ensures Of(Render(d, k)) == Some(DateValue(d, k))
  {
    if k == Str {
      ParseFormat(d);
    }
  }

  /** Reading a value and rendering it in its own kind gives the value back. */
  lemma RenderOf(v: Value)
    requires Of(v).Some?
    ensures Render(Of(v).value.date, Of(v).value.repr) == v
  {
    if v.StrValue? {
      FormatParse(v.text);
    }
  }

  /** A derived date in the given kind; fails when it falls outside the years a date can hold. */
  function Echo(d: Date, k: Repr): (r: Option<Value>)
    requires Valid(d)
    ensures r.Some? <==> MinYear <= d.year <= MaxYear
    ensures r.Some? ==> KindOf(r.value) == k && Of(r.value) == Some(DateValue(d, k))
  {
    if MinYear <= d.year <= MaxYear then
      OfRender(d, k);
      Some(Render(d, k))
    else None
  }

  /** Two values are equal as dates when both are valid and hold the same calendar day, whatever their kinds. */
  predicate SameDate(a: Value, b: Value) {
    Of(a).Some? && Of(b).Some? && Of(a).value.date == Of(b).value.date
  }

  /** Any two renderings of one date compare equal, and renderings of different dates do not. */
  lemma SameDateAcrossKinds(d: Date, e: Date, j: Repr, k: Repr)
    requires InRange(d) && InRange(e)
    ensures SameDate(Render(d, j), Render(e, k)) <==> d == e
  {
    OfRender(d, j);
    OfRender(e, k);
  }
}
