/**
 * The parameter tables of the library's test suite, one lemma per table
 * block or row: each states the expected answer for the listed inputs and
 * proves that the model gives it.
 */
module Cases {
  import opened Wrappers
  import opened Calendar
  import opened Boundaries
  import Delta
  import opened SmartDates
  import opened Phrases
  import opened Nadar
  import Parser

  /** Day counts of the year starts the tables use, from the closed form. */
  lemma YearStarts()
    ensures DaysBeforeYear(2017) == 736329
    ensures DaysBeforeYear(2018) == 736694
  {
    DaysBeforeYearFormula(2017);
    DaysBeforeYearFormula(2018);
  }

  /** One get_start row in all three kinds: the ISO string, the native date and the SmartDate. */
  lemma StartRow(kind: string, u: Unit, d: Date, e: Date, ds: string, es: string)
    requires ParseKind(kind) == Some(u) && InRange(d) && InRange(e) && Start(u, d) == e
    requires FormatIso(d) == ds && FormatIso(e) == es
    ensures GetStart(kind, StrValue(ds)) == Some(StrValue(es))
    ensures GetStart(kind, NativeValue(d)) == Some(NativeValue(e))
    ensures GetStart(kind, SmartValue(d)) == Some(SmartValue(e))
  {
    GetStartEcho(kind, d, Str);
    GetStartEcho(kind, d, Native);
    GetStartEcho(kind, d, Smart);
  }

  /** One get_end row in all three kinds. */
  lemma EndRow(kind: string, u: Unit, d: Date, e: Date, ds: string, es: string)
    requires ParseKind(kind) == Some(u) && InRange(d) && InRange(e) && End(u, d) == e
    requires FormatIso(d) == ds && FormatIso(e) == es
    ensures GetEnd(kind, StrValue(ds)) == Some(StrValue(es))
    ensures GetEnd(kind, NativeValue(d)) == Some(NativeValue(e))
    ensures GetEnd(kind, SmartValue(d)) == Some(SmartValue(e))
  {
    GetEndEcho(kind, d, Str);
    GetEndEcho(kind, d, Native);
    GetEndEcho(kind, d, Smart);
  }

  /** One delta_date row in all three kinds. */
  lemma DeltaRow(d: Date, years: int, months: int, days: int, e: Date, ds: string, es: string)
    requires InRange(d) && InRange(e) && Delta.DeltaDate(d, years, months, days) == e
    requires FormatIso(d) == ds && FormatIso(e) == es
    ensures DeltaDate(StrValue(ds), years, months, days) == Some(StrValue(es))
    ensures DeltaDate(NativeValue(d), years, months, days) == Some(NativeValue(e))
    ensures DeltaDate(SmartValue(d), years, months, days) == Some(SmartValue(e))
  {
    DeltaDateEcho(d, Str, years, months, days);
    DeltaDateEcho(d, Native, years, months, days);
    DeltaDateEcho(d, Smart, years, months, days);
  }

  /** Words joined by single spaces tokenise back into those words. */
  lemma Phrase(ws: seq<string>, text: string)
    requires forall k :: 0 <= k < |ws| ==> IsWord(ws[k])
    requires Join(ws) == text
    ensures Tokenize(text) == ws
  {
    TokenizeJoin(ws);
  }

  /** The period "last/next <unit>" yields, from the facts that fix it. */
  lemma AdjacentAt(u: Unit, ref: Date, k: int, s: Date, a: Date, p: SmartPeriod)
    requires Valid(ref) && Start(u, ref) == s && Parser.Shift(s, u, k) == a
    requires Start(u, a) == p.start && End(u, a) == p.end
    ensures Parser.Adjacent(u, ref, k) == p
  {
  }

  /** One parse_reference row, with a native reference date. */
  lemma ReferenceRow(text: string, ws: seq<string>, ref: Date, e: Date)
    requires InRange(ref) && InRange(e) && Tokenize(text) == ws && Parser.Reference(ws, ref) == Some(e)
    ensures ParseReference(text, NativeValue(ref)) == Some(SmartValue(e))
  {
  }

  /** One parse_period row, with a native reference date. */
  lemma PeriodRow(text: string, ws: seq<string>, ref: Date, p: SmartPeriod)
    requires InRange(ref) && InRange(p.start) && InRange(p.end)
    requires Tokenize(text) == ws && Parser.Period(ws, ref) == Some(p)
    ensures ParsePeriod(text, NativeValue(ref)) == Some(p)
  {
  }

  /** One "last <unit>" (k = -1) or "next <unit>" (k = 1) parse_period row, with a native reference date. */
  lemma AdjacentRow(text: string, w: string, unit: string, u: Unit, k: int, ref: Date, p: SmartPeriod)
    requires Tokenize(text) == [w, unit] && UnitWord(unit) == Some(u)
    requires (k == -1 || k == 1) && w == if k < 0 then "last" else "next"
    requires InRange(ref) && InRange(p.start) && InRange(p.end) && Parser.Adjacent(u, ref, k) == p
    ensures ParsePeriod(text, NativeValue(ref)) == Some(p)
  {
    Parser.PeriodAdjacentWords(w, unit, u, k, ref);
    PeriodRow(text, [w, unit], ref, p);
  }

  // Each ISO text of the tables, written out from its date.
  lemma Iso2016_01_01() ensures FormatIso(Date(2016, 1, 1)) == "2016-01-01" { }
  lemma Iso2016_08_28() ensures FormatIso(Date(2016, 8, 28)) == "2016-08-28" { }
  lemma Iso2016_12_31() ensures FormatIso(Date(2016, 12, 31)) == "2016-12-31" { }
  lemma Iso2017_01_01() ensures FormatIso(Date(2017, 1, 1)) == "2017-01-01" { }
  lemma Iso2017_03_01() ensures FormatIso(Date(2017, 3, 1)) == "2017-03-01" { }
  lemma Iso2017_03_28() ensures FormatIso(Date(2017, 3, 28)) == "2017-03-28" { }
  lemma Iso2017_03_31() ensures FormatIso(Date(2017, 3, 31)) == "2017-03-31" { }
  lemma Iso2017_07_01() ensures FormatIso(Date(2017, 7, 1)) == "2017-07-01" { }
  lemma Iso2017_08_01() ensures FormatIso(Date(2017, 8, 1)) == "2017-08-01" { }
  lemma Iso2017_08_28() ensures FormatIso(Date(2017, 8, 28)) == "2017-08-28" { }
  lemma Iso2017_08_31() ensures FormatIso(Date(2017, 8, 31)) == "2017-08-31" { }
  lemma Iso2017_09_30() ensures FormatIso(Date(2017, 9, 30)) == "2017-09-30" { }
  lemma Iso2017_12_28() ensures FormatIso(Date(2017, 12, 28)) == "2017-12-28" { }
  lemma Iso2017_12_31() ensures FormatIso(Date(2017, 12, 31)) == "2017-12-31" { }
  lemma Iso2018_01_01() ensures FormatIso(Date(2018, 1, 1)) == "2018-01-01" { }
  lemma Iso2018_01_07() ensures FormatIso(Date(2018, 1, 7)) == "2018-01-07" { }
  lemma Iso2018_02_12() ensures FormatIso(Date(2018, 2, 12)) == "2018-02-12" { }
  lemma Iso2018_02_15() ensures FormatIso(Date(2018, 2, 15)) == "2018-02-15" { }
  lemma Iso2018_02_18() ensures FormatIso(Date(2018, 2, 18)) == "2018-02-18" { }
  lemma Iso2018_02_28() ensures FormatIso(Date(2018, 2, 28)) == "2018-02-28" { }
  lemma Iso2018_03_01() ensures FormatIso(Date(2018, 3, 1)) == "2018-03-01" { }
  lemma Iso2018_03_26() ensures FormatIso(Date(2018, 3, 26)) == "2018-03-26" { }
  lemma Iso2018_03_28() ensures FormatIso(Date(2018, 3, 28)) == "2018-03-28" { }
  lemma Iso2018_03_30() ensures FormatIso(Date(2018, 3, 30)) == "2018-03-30" { }
  lemma Iso2018_03_31() ensures FormatIso(Date(2018, 3, 31)) == "2018-03-31" { }
  lemma Iso2018_04_01() ensures FormatIso(Date(2018, 4, 1)) == "2018-04-01" { }
  lemma Iso2018_04_05() ensures FormatIso(Date(2018, 4, 5)) == "2018-04-05" { }
  lemma Iso2018_05_08() ensures FormatIso(Date(2018, 5, 8)) == "2018-05-08" { }
  lemma Iso2018_12_31() ensures FormatIso(Date(2018, 12, 31)) == "2018-12-31" { }

  lemma GetStartYearRows()
    ensures GetStart("year", StrValue("2018-03-28")) == Some(StrValue("2018-01-01"))
    ensures GetStart("year", StrValue("2017-03-28")) == Some(StrValue("2017-01-01"))
    ensures GetStart("year", StrValue("2016-08-28")) == Some(StrValue("2016-01-01"))
    ensures GetStart("year", NativeValue(Date(2018, 3, 28))) == Some(NativeValue(Date(2018, 1, 1)))
    ensures GetStart("year", NativeValue(Date(2017, 3, 28))) == Some(NativeValue(Date(2017, 1, 1)))
    ensures GetStart("year", NativeValue(Date(2016, 8, 28))) == Some(NativeValue(Date(2016, 1, 1)))
    ensures GetStart("year", SmartValue(Date(2018, 3, 28))) == Some(SmartValue(Date(2018, 1, 1)))
    ensures GetStart("year", SmartValue(Date(2017, 3, 28))) == Some(SmartValue(Date(2017, 1, 1)))
    ensures GetStart("year", SmartValue(Date(2016, 8, 28))) == Some(SmartValue(Date(2016, 1, 1)))
  {
    Iso2018_03_28();
    Iso2018_01_01();
    StartRow("year", Year, Date(2018, 3, 28), Date(2018, 1, 1), "2018-03-28", "2018-01-01");
    Iso2017_03_28();
    Iso2017_01_01();
    StartRow("year", Year, Date(2017, 3, 28), Date(2017, 1, 1), "2017-03-28", "2017-01-01");
    Iso2016_08_28();
    Iso2016_01_01();
    StartRow("year", Year, Date(2016, 8, 28), Date(2016, 1, 1), "2016-08-28", "2016-01-01");
  }

  lemma GetStartQuarterRows()
    ensures GetStart("quarter", StrValue("2018-03-28")) == Some(StrValue("2018-01-01"))
    ensures GetStart("quarter", StrValue("2017-03-28")) == Some(StrValue("2017-01-01"))
    ensures GetStart("quarter", StrValue("2017-08-28")) == Some(StrValue("2017-07-01"))
    ensures GetStart("quarter", NativeValue(Date(2018, 3, 28))) == Some(NativeValue(Date(2018, 1, 1)))
    ensures GetStart("quarter", NativeValue(Date(2017, 3, 28))) == Some(NativeValue(Date(2017, 1, 1)))
    ensures GetStart("quarter", NativeValue(Date(2017, 8, 28))) == Some(NativeValue(Date(2017, 7, 1)))
    ensures GetStart("quarter", SmartValue(Date(2018, 3, 28))) == Some(SmartValue(Date(2018, 1, 1)))
    ensures GetStart("quarter", SmartValue(Date(2017, 3, 28))) == Some(SmartValue(Date(2017, 1, 1)))
    ensures GetStart("quarter", SmartValue(Date(2017, 8, 28))) == Some(SmartValue(Date(2017, 7, 1)))
  {
    Iso2018_03_28();
    Iso2018_01_01();
    StartRow("quarter", Quarter, Date(2018, 3, 28), Date(2018, 1, 1), "2018-03-28", "2018-01-01");
    Iso2017_03_28();
    Iso2017_01_01();
    StartRow("quarter", Quarter, Date(2017, 3, 28), Date(2017, 1, 1), "2017-03-28", "2017-01-01");
    Iso2017_08_28();
    Iso2017_07_01();
    StartRow("quarter", Quarter, Date(2017, 8, 28), Date(2017, 7, 1), "2017-08-28", "2017-07-01");
  }

  lemma GetStartMonthRows()
    ensures GetStart("month", StrValue("2018-03-28")) == Some(StrValue("2018-03-01"))
    ensures GetStart("month", StrValue("2017-03-28")) == Some(StrValue("2017-03-01"))
    ensures GetStart("month", StrValue("2017-08-28")) == Some(StrValue("2017-08-01"))
    ensures GetStart("month", NativeValue(Date(2018, 3, 28))) == Some(NativeValue(Date(2018, 3, 1)))
    ensures GetStart("month", NativeValue(Date(2017, 3, 28))) == Some(NativeValue(Date(2017, 3, 1)))
    ensures GetStart("month", NativeValue(Date(2017, 8, 28))) == Some(NativeValue(Date(2017, 8, 1)))
    ensures GetStart("month", SmartValue(Date(2018, 3, 28))) == Some(SmartValue(Date(2018, 3, 1)))
    ensures GetStart("month", SmartValue(Date(2017, 3, 28))) == Some(SmartValue(Date(2017, 3, 1)))
    ensures GetStart("month", SmartValue(Date(2017, 8, 28))) == Some(SmartValue(Date(2017, 8, 1)))
  {
    Iso2018_03_28();
    Iso2018_03_01();
    StartRow("month", Month, Date(2018, 3, 28), Date(2018, 3, 1), "2018-03-28", "2018-03-01");
    Iso2017_03_28();
    Iso2017_03_01();
    StartRow("month", Month, Date(2017, 3, 28), Date(2017, 3, 1), "2017-03-28", "2017-03-01");
    Iso2017_08_28();
    Iso2017_08_01();
    StartRow("month", Month, Date(2017, 8, 28), Date(2017, 8, 1), "2017-08-28", "2017-08-01");
  }

  /** The Mondays of the week rows: 2018-03-26, 2018-02-12 and 2018-01-01. */
  lemma WeekStarts()
    ensures Start(Week, Date(2018, 3, 28)) == Date(2018, 3, 26)
    ensures Start(Week, Date(2018, 2, 15)) == Date(2018, 2, 12)
    ensures Start(Week, Date(2018, 1, 1)) == Date(2018, 1, 1)
  {
    YearStarts();
    WeekStartUnique(Date(2018, 3, 28), Date(2018, 3, 26));
    WeekStartUnique(Date(2018, 2, 15), Date(2018, 2, 12));
    WeekStartUnique(Date(2018, 1, 1), Date(2018, 1, 1));
  }

  lemma GetStartWeekRows()
    ensures GetStart("week", StrValue("2018-03-28")) == Some(StrValue("2018-03-26"))
    ensures GetStart("week", StrValue("2018-02-15")) == Some(StrValue("2018-02-12"))
    ensures GetStart("week", StrValue("2018-01-01")) == Some(StrValue("2018-01-01"))
    ensures GetStart("week", NativeValue(Date(2018, 3, 28))) == Some(NativeValue(Date(2018, 3, 26)))
    ensures GetStart("week", NativeValue(Date(2018, 2, 15))) == Some(NativeValue(Date(2018, 2, 12)))
    ensures GetStart("week", NativeValue(Date(2018, 1, 1))) == Some(NativeValue(Date(2018, 1, 1)))
    ensures GetStart("week", SmartValue(Date(2018, 3, 28))) == Some(SmartValue(Date(2018, 3, 26)))
    ensures GetStart("week", SmartValue(Date(2018, 2, 15))) == Some(SmartValue(Date(2018, 2, 12)))
    ensures GetStart("week", SmartValue(Date(2018, 1, 1))) == Some(SmartValue(Date(2018, 1, 1)))
  {
    WeekStarts();
    Iso2018_03_28();
    Iso2018_03_26();
    StartRow("week", Week, Date(2018, 3, 28), Date(2018, 3, 26), "2018-03-28", "2018-03-26");
    Iso2018_02_15();
    Iso2018_02_12();
    StartRow("week", Week, Date(2018, 2, 15), Date(2018, 2, 12), "2018-02-15", "2018-02-12");
    Iso2018_01_01();
    Iso2018_01_01();
    StartRow("week", Week, Date(2018, 1, 1), Date(2018, 1, 1), "2018-01-01", "2018-01-01");
  }

  lemma GetEndYearRows()
    ensures GetEnd("year", StrValue("2018-03-28")) == Some(StrValue("2018-12-31"))
    ensures GetEnd("year", StrValue("2017-03-28")) == Some(StrValue("2017-12-31"))
    ensures GetEnd("year", StrValue("2016-08-28")) == Some(StrValue("2016-12-31"))
    ensures GetEnd("year", NativeValue(Date(2018, 3, 28))) == Some(NativeValue(Date(2018, 12, 31)))
    ensures GetEnd("year", NativeValue(Date(2017, 3, 28))) == Some(NativeValue(Date(2017, 12, 31)))
    ensures GetEnd("year", NativeValue(Date(2016, 8, 28))) == Some(NativeValue(Date(2016, 12, 31)))
    ensures GetEnd("year", SmartValue(Date(2018, 3, 28))) == Some(SmartValue(Date(2018, 12, 31)))
    ensures GetEnd("year", SmartValue(Date(2017, 3, 28))) == Some(SmartValue(Date(2017, 12, 31)))
    ensures GetEnd("year", SmartValue(Date(2016, 8, 28))) == Some(SmartValue(Date(2016, 12, 31)))
  {
    Iso2018_03_28();
    Iso2018_12_31();
    EndRow("year", Year, Date(2018, 3, 28), Date(2018, 12, 31), "2018-03-28", "2018-12-31");
    Iso2017_03_28();
    Iso2017_12_31();
    EndRow("year", Year, Date(2017, 3, 28), Date(2017, 12, 31), "2017-03-28", "2017-12-31");
    Iso2016_08_28();
    Iso2016_12_31();
    EndRow("year", Year, Date(2016, 8, 28), Date(2016, 12, 31), "2016-08-28", "2016-12-31");
  }

  /** The quarter ends of the get_end rows. */
  lemma QuarterEnds()
    ensures End(Quarter, Date(2018, 3, 28)) == Date(2018, 3, 31)
    ensures End(Quarter, Date(2017, 3, 28)) == Date(2017, 3, 31)
    ensures End(Quarter, Date(2017, 8, 28)) == Date(2017, 9, 30)
    ensures End(Quarter, Date(2017, 12, 28)) == Date(2017, 12, 31)
  {
  }

  lemma GetEndQuarterRows()
    ensures GetEnd("quarter", StrValue("2018-03-28")) == Some(StrValue("2018-03-31"))
    ensures GetEnd("quarter", StrValue("2017-03-28")) == Some(StrValue("2017-03-31"))
    ensures GetEnd("quarter", StrValue("2017-08-28")) == Some(StrValue("2017-09-30"))
    ensures GetEnd("quarter", StrValue("2017-12-28")) == Some(StrValue("2017-12-31"))
    ensures GetEnd("quarter", NativeValue(Date(2018, 3, 28))) == Some(NativeValue(Date(2018, 3, 31)))
    ensures GetEnd("quarter", NativeValue(Date(2017, 3, 28))) == Some(NativeValue(Date(2017, 3, 31)))
    ensures GetEnd("quarter", NativeValue(Date(2017, 8, 28))) == Some(NativeValue(Date(2017, 9, 30)))
    ensures GetEnd("quarter", NativeValue(Date(2017, 12, 28))) == Some(NativeValue(Date(2017, 12, 31)))
    ensures GetEnd("quarter", SmartValue(Date(2018, 3, 28))) == Some(SmartValue(Date(2018, 3, 31)))
    ensures GetEnd("quarter", SmartValue(Date(2017, 3, 28))) == Some(SmartValue(Date(2017, 3, 31)))
    ensures GetEnd("quarter", SmartValue(Date(2017, 8, 28))) == Some(SmartValue(Date(2017, 9, 30)))
    ensures GetEnd("quarter", SmartValue(Date(2017, 12, 28))) == Some(SmartValue(Date(2017, 12, 31)))
  {
    QuarterEnds();
    Iso2018_03_28();
    Iso2018_03_31();
    EndRow("quarter", Quarter, Date(2018, 3, 28), Date(2018, 3, 31), "2018-03-28", "2018-03-31");
    Iso2017_03_28();
    Iso2017_03_31();
    EndRow("quarter", Quarter, Date(2017, 3, 28), Date(2017, 3, 31), "2017-03-28", "2017-03-31");
    Iso2017_08_28();
    Iso2017_09_30();
    EndRow("quarter", Quarter, Date(2017, 8, 28), Date(2017, 9, 30), "2017-08-28", "2017-09-30");
    Iso2017_12_28();
    Iso2017_12_31();
    EndRow("quarter", Quarter, Date(2017, 12, 28), Date(2017, 12, 31), "2017-12-28", "2017-12-31");
  }

  /** The month ends of the get_end rows. */
  lemma MonthEnds()
    ensures End(Month, Date(2018, 3, 28)) == Date(2018, 3, 31)
    ensures End(Month, Date(2017, 3, 28)) == Date(2017, 3, 31)
    ensures End(Month, Date(2017, 8, 28)) == Date(2017, 8, 31)
  {
  }

  lemma GetEndMonthRows()
    ensures GetEnd("month", StrValue("2018-03-28")) == Some(StrValue("2018-03-31"))
    ensures GetEnd("month", StrValue("2017-03-28")) == Some(StrValue("2017-03-31"))
    ensures GetEnd("month", StrValue("2017-08-28")) == Some(StrValue("2017-08-31"))
    ensures GetEnd("month", NativeValue(Date(2018, 3, 28))) == Some(NativeValue(Date(2018, 3, 31)))
    ensures GetEnd("month", NativeValue(Date(2017, 3, 28))) == Some(NativeValue(Date(2017, 3, 31)))
    ensures GetEnd("month", NativeValue(Date(2017, 8, 28))) == Some(NativeValue(Date(2017, 8, 31)))
    ensures GetEnd("month", SmartValue(Date(2018, 3, 28))) == Some(SmartValue(Date(2018, 3, 31)))
    ensures GetEnd("month", SmartValue(Date(2017, 3, 28))) == Some(SmartValue(Date(2017, 3, 31)))
    ensures GetEnd("month", SmartValue(Date(2017, 8, 28))) == Some(SmartValue(Date(2017, 8, 31)))
  {
    MonthEnds();
    Iso2018_03_28();
    Iso2018_03_31();
    EndRow("month", Month, Date(2018, 3, 28), Date(2018, 3, 31), "2018-03-28", "2018-03-31");
    Iso2017_03_28();
    Iso2017_03_31();
    EndRow("month", Month, Date(2017, 3, 28), Date(2017, 3, 31), "2017-03-28", "2017-03-31");
    Iso2017_08_28();
    Iso2017_08_31();
    EndRow("month", Month, Date(2017, 8, 28), Date(2017, 8, 31), "2017-08-28", "2017-08-31");
  }

  /** The Sundays of the week rows: six days after each week's Monday. */
  lemma WeekEnds()
    ensures End(Week, Date(2018, 3, 28)) == Date(2018, 4, 1)
    ensures End(Week, Date(2018, 2, 15)) == Date(2018, 2, 18)
    ensures End(Week, Date(2018, 1, 1)) == Date(2018, 1, 7)
  {
    WeekStarts();
    WeekEndFromStart(Date(2018, 3, 28), Date(2018, 4, 1));
    WeekEndFromStart(Date(2018, 2, 15), Date(2018, 2, 18));
    WeekEndFromStart(Date(2018, 1, 1), Date(2018, 1, 7));
  }

  lemma GetEndWeekRows()
    ensures GetEnd("week", StrValue("2018-03-28")) == Some(StrValue("2018-04-01"))
    ensures GetEnd("week", StrValue("2018-02-15")) == Some(StrValue("2018-02-18"))
    ensures GetEnd("week", StrValue("2018-01-01")) == Some(StrValue("2018-01-07"))
    ensures GetEnd("week", NativeValue(Date(2018, 3, 28))) == Some(NativeValue(Date(2018, 4, 1)))
    ensures GetEnd("week", NativeValue(Date(2018, 2, 15))) == Some(NativeValue(Date(2018, 2, 18)))
    ensures GetEnd("week", NativeValue(Date(2018, 1, 1))) == Some(NativeValue(Date(2018, 1, 7)))
    ensures GetEnd("week", SmartValue(Date(2018, 3, 28))) == Some(SmartValue(Date(2018, 4, 1)))
    ensures GetEnd("week", SmartValue(Date(2018, 2, 15))) == Some(SmartValue(Date(2018, 2, 18)))
    ensures GetEnd("week", SmartValue(Date(2018, 1, 1))) == Some(SmartValue(Date(2018, 1, 7)))
  {
    WeekEnds();
    Iso2018_03_28();
    Iso2018_04_01();
    EndRow("week", Week, Date(2018, 3, 28), Date(2018, 4, 1), "2018-03-28", "2018-04-01");
    Iso2018_02_15();
    Iso2018_02_18();
    EndRow("week", Week, Date(2018, 2, 15), Date(2018, 2, 18), "2018-02-15", "2018-02-18");
    Iso2018_01_01();
    Iso2018_01_07();
    EndRow("week", Week, Date(2018, 1, 1), Date(2018, 1, 7), "2018-01-01", "2018-01-07");
  }

  lemma DeltaDateDaysRow()
    ensures DeltaDate(StrValue("2018-03-30"), 0, 0, 6) == Some(StrValue("2018-04-05"))
    ensures DeltaDate(NativeValue(Date(2018, 3, 30)), 0, 0, 6) == Some(NativeValue(Date(2018, 4, 5)))
    ensures DeltaDate(SmartValue(Date(2018, 3, 30)), 0, 0, 6) == Some(SmartValue(Date(2018, 4, 5)))
  {
    Delta.DeltaDays(Date(2018, 3, 30), 6);
    AddDaysByOrdinal(Date(2018, 3, 30), 6, Date(2018, 4, 5));
    Iso2018_03_30();
    Iso2018_04_05();
    DeltaRow(Date(2018, 3, 30), 0, 0, 6, Date(2018, 4, 5), "2018-03-30", "2018-04-05");
  }

  /** One month back from March 31st is clamped to February 28th. */
  lemma DeltaDateMonthsRow()
    ensures DeltaDate(StrValue("2018-03-31"), 0, -1, 0) == Some(StrValue("2018-02-28"))
    ensures DeltaDate(NativeValue(Date(2018, 3, 31)), 0, -1, 0) == Some(NativeValue(Date(2018, 2, 28)))
    ensures DeltaDate(SmartValue(Date(2018, 3, 31)), 0, -1, 0) == Some(SmartValue(Date(2018, 2, 28)))
  {
    Delta.ShiftMonthsByIndex(Date(2018, 3, 31), -1, Date(2018, 2, 28));
    Iso2018_03_31();
    Iso2018_02_28();
    DeltaRow(Date(2018, 3, 31), 0, -1, 0, Date(2018, 2, 28), "2018-03-31", "2018-02-28");
  }

  lemma OneYearAgoTokens()
    ensures Tokenize("one year ago") == ["one", "year", "ago"]
  {
    Phrase(["one", "year", "ago"], "one year ago");
  }

  lemma OneYearAgoParsed()
    ensures Parser.Reference(["one", "year", "ago"], Date(2018, 5, 8)) == Some(Date(2017, 5, 8))
  {
    Parser.ReferenceAgoShift("one", "year", Date(2018, 5, 8));
    Parser.ShiftMonthsOf(Date(2018, 5, 8), Year, -1);
    Delta.ShiftMonthsByIndex(Date(2018, 5, 8), -12, Date(2017, 5, 8));
  }

  /** A year back from 2018-05-08 is twelve months back. */
  lemma OneYearAgo()
    ensures ParseReference("one year ago", NativeValue(Date(2018, 5, 8))) == Some(SmartValue(Date(2017, 5, 8)))
  {
    OneYearAgoTokens();
    OneYearAgoParsed();
    ReferenceRow("one year ago", ["one", "year", "ago"], Date(2018, 5, 8), Date(2017, 5, 8));
  }

  lemma ThreeMonthsAgoTokens()
    ensures Tokenize("three months ago") == ["three", "months", "ago"]
  {
    Phrase(["three", "months", "ago"], "three months ago");
  }

  lemma ThreeMonthsAgoParsed()
    ensures Parser.Reference(["three", "months", "ago"], Date(2018, 5, 8)) == Some(Date(2018, 2, 8))
  {
    Parser.ReferenceAgoShift("three", "months", Date(2018, 5, 8));
    Parser.ShiftMonthsOf(Date(2018, 5, 8), Month, -3);
    Delta.ShiftMonthsByIndex(Date(2018, 5, 8), -3, Date(2018, 2, 8));
  }

  /** Three months back keeps the day of month. */
  lemma ThreeMonthsAgo()
    ensures ParseReference("three months ago", NativeValue(Date(2018, 5, 8))) == Some(SmartValue(Date(2018, 2, 8)))
  {
    ThreeMonthsAgoTokens();
    ThreeMonthsAgoParsed();
    ReferenceRow("three months ago", ["three", "months", "ago"], Date(2018, 5, 8), Date(2018, 2, 8));
  }

  lemma FiveDaysAgoTokens()
    ensures Tokenize("five days ago") == ["five", "days", "ago"]
  {
    Phrase(["five", "days", "ago"], "five days ago");
  }

  lemma FiveDaysAgoParsed()
    ensures Parser.Reference(["five", "days", "ago"], Date(2018, 5, 8)) == Some(Date(2018, 5, 3))
  {
    Parser.ReferenceAgoShift("five", "days", Date(2018, 5, 8));
    AddDaysByOrdinal(Date(2018, 5, 8), -5, Date(2018, 5, 3));
  }

  /** Five days back is five day numbers earlier. */
  lemma FiveDaysAgo()
    ensures ParseReference("five days ago", NativeValue(Date(2018, 5, 8))) == Some(SmartValue(Date(2018, 5, 3)))
  {
    FiveDaysAgoTokens();
    FiveDaysAgoParsed();
    ReferenceRow("five days ago", ["five", "days", "ago"], Date(2018, 5, 8), Date(2018, 5, 3));
  }

  lemma TwoQuartersAgoTokens()
    ensures Tokenize("two quarters ago") == ["two", "quarters", "ago"]
  {
    Phrase(["two", "quarters", "ago"], "two quarters ago");
  }

  lemma TwoQuartersAgoParsed()
    ensures Parser.Reference(["two", "quarters", "ago"], Date(2018, 5, 8)) == Some(Date(2017, 11, 8))
  {
    Parser.ReferenceAgoShift("two", "quarters", Date(2018, 5, 8));
    Parser.ShiftMonthsOf(Date(2018, 5, 8), Quarter, -2);
    Delta.ShiftMonthsByIndex(Date(2018, 5, 8), -6, Date(2017, 11, 8));
  }

  /** Two quarters back is six months back. */
  lemma TwoQuartersAgo()
    ensures ParseReference("two quarters ago", NativeValue(Date(2018, 5, 8))) == Some(SmartValue(Date(2017, 11, 8)))
  {
    TwoQuartersAgoTokens();
    TwoQuartersAgoParsed();
    ReferenceRow("two quarters ago", ["two", "quarters", "ago"], Date(2018, 5, 8), Date(2017, 11, 8));
  }

  lemma YesterdayTokens()
    ensures Tokenize("yesterday") == ["yesterday"]
  {
    Phrase(["yesterday"], "yesterday");
  }

  lemma YesterdayParsed()
    ensures Parser.Reference(["yesterday"], Date(2018, 5, 8)) == Some(Date(2018, 5, 7))
  {
    Parser.ReferenceKeywordDays(Date(2018, 5, 8));
    AddDaysByOrdinal(Date(2018, 5, 8), -1, Date(2018, 5, 7));
  }

  /** "yesterday" is the day before the reference. */
  lemma Yesterday()
    ensures ParseReference("yesterday", NativeValue(Date(2018, 5, 8))) == Some(SmartValue(Date(2018, 5, 7)))
  {
    YesterdayTokens();
    YesterdayParsed();
    ReferenceRow("yesterday", ["yesterday"], Date(2018, 5, 8), Date(2018, 5, 7));
  }

  lemma TodayTokens()
    ensures Tokenize("today") == ["today"]
  {
    Phrase(["today"], "today");
  }

  lemma TodayParsed()
    ensures Parser.Reference(["today"], Date(2018, 5, 8)) == Some(Date(2018, 5, 8))
  {
    Parser.ReferenceKeywordDays(Date(2018, 5, 8));
  }

  /** "today" is the reference itself. */
  lemma Today()
    ensures ParseReference("today", NativeValue(Date(2018, 5, 8))) == Some(SmartValue(Date(2018, 5, 8)))
  {
    TodayTokens();
    TodayParsed();
    ReferenceRow("today", ["today"], Date(2018, 5, 8), Date(2018, 5, 8));
  }

  lemma TomorrowTokens()
    ensures Tokenize("tomorrow") == ["tomorrow"]
  {
    Phrase(["tomorrow"], "tomorrow");
  }

  lemma TomorrowParsed()
    ensures Parser.Reference(["tomorrow"], Date(2018, 5, 8)) == Some(Date(2018, 5, 9))
  {
    Parser.ReferenceKeywordDays(Date(2018, 5, 8));
    AddDaysByOrdinal(Date(2018, 5, 8), 1, Date(2018, 5, 9));
  }

  /** "tomorrow" is the day after the reference. */
  lemma Tomorrow()
    ensures ParseReference("tomorrow", NativeValue(Date(2018, 5, 8))) == Some(SmartValue(Date(2018, 5, 9)))
  {
    TomorrowTokens();
    TomorrowParsed();
    ReferenceRow("tomorrow", ["tomorrow"], Date(2018, 5, 8), Date(2018, 5, 9));
  }

  /** A written date names itself. */
  lemma LiteralDate()
    ensures ParseReference("2018-05-08", NativeValue(Date(2018, 5, 8))) == Some(SmartValue(Date(2018, 5, 8)))
  {
    Iso2018_05_08();
    ReferenceLiteral(Date(2018, 5, 8), NativeValue(Date(2018, 5, 8)));
  }

  // The unit words of the parse_period rows.
  lemma MonthWord() ensures UnitWord("month") == Some(Month) { }
  lemma YearWord() ensures UnitWord("year") == Some(Year) { }
  lemma QuarterWord() ensures UnitWord("quarter") == Some(Quarter) { }

  lemma LastMonthTokens()
    ensures Tokenize("last month") == ["last", "month"]
  {
    Phrase(["last", "month"], "last month");
  }

  lemma LastMonthAdjacent(ref: Date)
    requires InRange(ref) && ref.month == 5
    ensures Parser.Adjacent(Month, ref, -1) == SmartPeriod(Date(ref.year, 4, 1), Date(ref.year, 4, 30))
  {
    var s, a := Date(ref.year, 5, 1), Date(ref.year, 4, 1);
    Parser.ShiftMonthsOf(s, Month, -1);
    Delta.ShiftMonthsByIndex(s, -1, a);
    assert Start(Month, ref) == s;
    assert Parser.Shift(s, Month, -1) == a;
    assert Start(Month, a) == a;
    assert End(Month, a) == Date(ref.year, 4, 30);
    AdjacentAt(Month, ref, -1, s, a, SmartPeriod(a, Date(ref.year, 4, 30)));
  }

  /** From any day of May, "last month" is all of April (2018-05-08 gives 2018-04-01 to 2018-04-30). */
  lemma LastMonth(ref: Date)
    requires InRange(ref) && ref.month == 5
    ensures ParsePeriod("last month", NativeValue(ref)) == Some(SmartPeriod(Date(ref.year, 4, 1), Date(ref.year, 4, 30)))
  {
    LastMonthTokens();
    LastMonthAdjacent(ref);
    MonthWord();
    AdjacentRow("last month", "last", "month", Month, -1, ref, SmartPeriod(Date(ref.year, 4, 1), Date(ref.year, 4, 30)));
  }

  lemma ThisWeekTokens()
    ensures Tokenize("this week") == ["this", "week"]
  {
    Phrase(["this", "week"], "this week");
  }

  lemma ThisWeekParsed()
    ensures Parser.Period(["this", "week"], Date(2018, 5, 8)) == Some(SmartPeriod(Date(2018, 5, 7), Date(2018, 5, 7)))
  {
    Parser.PeriodThisWords("week", Date(2018, 5, 8));
    YearStarts();
    WeekStartUnique(Date(2018, 5, 8), Date(2018, 5, 7));
    AddDaysByOrdinal(Date(2018, 5, 8), -1, Date(2018, 5, 7));
  }

  /** On Tuesday 2018-05-08, "this week" runs from Monday to the day before the reference: Monday alone. */
  lemma ThisWeek()
    ensures ParsePeriod("this week", NativeValue(Date(2018, 5, 8))) == Some(SmartPeriod(Date(2018, 5, 7), Date(2018, 5, 7)))
  {
    ThisWeekTokens();
    ThisWeekParsed();
    PeriodRow("this week", ["this", "week"], Date(2018, 5, 8), SmartPeriod(Date(2018, 5, 7), Date(2018, 5, 7)));
  }

  lemma LastYearTokens()
    ensures Tokenize("last year") == ["last", "year"]
  {
    Phrase(["last", "year"], "last year");
  }

  lemma LastQuarterTokens()
    ensures Tokenize("last quarter") == ["last", "quarter"]
  {
    Phrase(["last", "quarter"], "last quarter");
  }

  lemma NextQuarterTokens()
    ensures Tokenize("next quarter") == ["next", "quarter"]
  {
    Phrase(["next", "quarter"], "next quarter");
  }

  lemma NextYearTokens()
    ensures Tokenize("next year") == ["next", "year"]
  {
    Phrase(["next", "year"], "next year");
  }

  lemma LastYearAdjacent(ref: Date)
    requires InRange(ref) && MinYear < ref.year
    ensures Parser.Adjacent(Year, ref, -1) == SmartPeriod(Date(ref.year - 1, 1, 1), Date(ref.year - 1, 12, 31))
  {
    var s, a := Date(ref.year, 1, 1), Date(ref.year - 1, 1, 1);
    Parser.ShiftMonthsOf(s, Year, -1);
    Delta.ShiftMonthsByIndex(s, -12, a);
    assert Start(Year, ref) == s;
    assert Parser.Shift(s, Year, -1) == a;
    assert Start(Year, a) == a;
    assert End(Year, a) == Date(ref.year - 1, 12, 31);
    AdjacentAt(Year, ref, -1, s, a, SmartPeriod(a, Date(ref.year - 1, 12, 31)));
  }

  /** "last year" is the whole calendar year before the reference's (2018-05-08 gives all of 2017). */
  lemma LastYear(ref: Date)
    requires InRange(ref) && MinYear < ref.year
    ensures ParsePeriod("last year", NativeValue(ref)) == Some(SmartPeriod(Date(ref.year - 1, 1, 1), Date(ref.year - 1, 12, 31)))
  {
    LastYearTokens();
    LastYearAdjacent(ref);
    YearWord();
    AdjacentRow("last year", "last", "year", Year, -1, ref, SmartPeriod(Date(ref.year - 1, 1, 1), Date(ref.year - 1, 12, 31)));
  }

  lemma NextYearAdjacent(ref: Date)
    requires InRange(ref) && ref.year < MaxYear
    ensures Parser.Adjacent(Year, ref, 1) == SmartPeriod(Date(ref.year + 1, 1, 1), Date(ref.year + 1, 12, 31))
  {
    var s, a := Date(ref.year, 1, 1), Date(ref.year + 1, 1, 1);
    Parser.ShiftMonthsOf(s, Year, 1);
    Delta.ShiftMonthsByIndex(s, 12, a);
    assert Start(Year, ref) == s;
    assert Parser.Shift(s, Year, 1) == a;
    assert Start(Year, a) == a;
    assert End(Year, a) == Date(ref.year + 1, 12, 31);
    AdjacentAt(Year, ref, 1, s, a, SmartPeriod(a, Date(ref.year + 1, 12, 31)));
  }

  /** "next year" is the whole calendar year after the reference's (2017-05-03 gives all of 2018). */
  lemma NextYear(ref: Date)
    requires InRange(ref) && ref.year < MaxYear
    ensures ParsePeriod("next year", NativeValue(ref)) == Some(SmartPeriod(Date(ref.year + 1, 1, 1), Date(ref.year + 1, 12, 31)))
  {
    NextYearTokens();
    NextYearAdjacent(ref);
    YearWord();
    AdjacentRow("next year", "next", "year", Year, 1, ref, SmartPeriod(Date(ref.year + 1, 1, 1), Date(ref.year + 1, 12, 31)));
  }

  lemma LastQuarterAdjacent(ref: Date)
    requires InRange(ref) && 4 <= ref.month <= 6
    ensures Parser.Adjacent(Quarter, ref, -1) == SmartPeriod(Date(ref.year, 1, 1), Date(ref.year, 3, 31))
  {
    var s, a := Date(ref.year, 4, 1), Date(ref.year, 1, 1);
    Parser.ShiftMonthsOf(s, Quarter, -1);
    Delta.ShiftMonthsByIndex(s, -3, a);
    assert Start(Quarter, ref) == s by { assert QuarterFirstMonth(ref.month) == 4; }
    assert Parser.Shift(s, Quarter, -1) == a;
    assert Start(Quarter, a) == a;
    assert End(Quarter, a) == Date(ref.year, 3, 31);
    AdjacentAt(Quarter, ref, -1, s, a, SmartPeriod(a, Date(ref.year, 3, 31)));
  }

  /** From any day of a second quarter, "last quarter" is January to March (2017-05-03 gives 2017-01-01 to 2017-03-31). */
  lemma LastQuarter(ref: Date)
    requires InRange(ref) && 4 <= ref.month <= 6
    ensures ParsePeriod("last quarter", NativeValue(ref)) == Some(SmartPeriod(Date(ref.year, 1, 1), Date(ref.year, 3, 31)))
  {
    LastQuarterTokens();
    LastQuarterAdjacent(ref);
    QuarterWord();
    AdjacentRow("last quarter", "last", "quarter", Quarter, -1, ref, SmartPeriod(Date(ref.year, 1, 1), Date(ref.year, 3, 31)));
  }

  lemma NextQuarterAdjacent(ref: Date)
    requires InRange(ref) && 4 <= ref.month <= 6
    ensures Parser.Adjacent(Quarter, ref, 1) == SmartPeriod(Date(ref.year, 7, 1), Date(ref.year, 9, 30))
  {
    var s, a := Date(ref.year, 4, 1), Date(ref.year, 7, 1);
    Parser.ShiftMonthsOf(s, Quarter, 1);
    Delta.ShiftMonthsByIndex(s, 3, a);
    assert Start(Quarter, ref) == s by { assert QuarterFirstMonth(ref.month) == 4; }
    assert Parser.Shift(s, Quarter, 1) == a;
    assert Start(Quarter, a) == a;
    assert End(Quarter, a) == Date(ref.year, 9, 30);
    AdjacentAt(Quarter, ref, 1, s, a, SmartPeriod(a, Date(ref.year, 9, 30)));
  }

  /** From any day of a second quarter, "next quarter" is July to September (2017-05-03 gives 2017-07-01 to 2017-09-30). */
  lemma NextQuarter(ref: Date)
    requires InRange(ref) && 4 <= ref.month <= 6
    ensures ParsePeriod("next quarter", NativeValue(ref)) == Some(SmartPeriod(Date(ref.year, 7, 1), Date(ref.year, 9, 30)))
  {
    NextQuarterTokens();
    NextQuarterAdjacent(ref);
    QuarterWord();
    AdjacentRow("next quarter", "next", "quarter", Quarter, 1, ref, SmartPeriod(Date(ref.year, 7, 1), Date(ref.year, 9, 30)));
  }

  lemma NextDayTokens()
    ensures Tokenize("next day") == ["next", "day"]
  {
    Phrase(["next", "day"], "next day");
  }

  lemma NextDayParsed()
    ensures Parser.Period(["next", "day"], Date(2017, 5, 3)) == Some(SmartPeriod(Date(2017, 5, 4), Date(2017, 5, 4)))
  {
    AddDaysByOrdinal(Date(2017, 5, 3), 1, Date(2017, 5, 4));
    AdjacentAt(Day, Date(2017, 5, 3), 1, Date(2017, 5, 3), Date(2017, 5, 4), SmartPeriod(Date(2017, 5, 4), Date(2017, 5, 4)));
    Parser.PeriodAdjacentWords("next", "day", Day, 1, Date(2017, 5, 3));
  }

  /** "next day" is the single day after the reference. */
  lemma NextDay()
    ensures ParsePeriod("next day", NativeValue(Date(2017, 5, 3))) == Some(SmartPeriod(Date(2017, 5, 4), Date(2017, 5, 4)))
  {
    NextDayTokens();
    NextDayParsed();
    PeriodRow("next day", ["next", "day"], Date(2017, 5, 3), SmartPeriod(Date(2017, 5, 4), Date(2017, 5, 4)));
  }

  lemma BetweenDaysJoined()
    ensures Join(["between", "15", "and", "10", "days", "ago"]) == "between 15 and 10 days ago"
  {
  }

  lemma BetweenDaysTokens()
    ensures Tokenize("between 15 and 10 days ago") == ["between", "15", "and", "10", "days", "ago"]
  {
    BetweenDaysJoined();
    Phrase(["between", "15", "and", "10", "days", "ago"], "between 15 and 10 days ago");
  }

  lemma BetweenDaysParsed()
    ensures Parser.Period(["between", "15", "and", "10", "days", "ago"], Date(2018, 4, 19)) == Some(SmartPeriod(Date(2018, 4, 4), Date(2018, 4, 9)))
  {
    assert Cardinal("15") == Some(15);
    assert Cardinal("10") == Some(10);
    Parser.PeriodBetweenWords("15", "10", "days", Date(2018, 4, 19));
    AddDaysByOrdinal(Date(2018, 4, 19), -15, Date(2018, 4, 4));
    AddDaysByOrdinal(Date(2018, 4, 19), -10, Date(2018, 4, 9));
    Parser.MinMaxOrdered(Date(2018, 4, 4), Date(2018, 4, 9));
  }

  /** Fifteen and ten days back, the earlier day first. */
  lemma BetweenDays()
    ensures ParsePeriod("between 15 and 10 days ago", NativeValue(Date(2018, 4, 19))) == Some(SmartPeriod(Date(2018, 4, 4), Date(2018, 4, 9)))
  {
    BetweenDaysTokens();
    BetweenDaysParsed();
    PeriodRow("between 15 and 10 days ago", ["between", "15", "and", "10", "days", "ago"], Date(2018, 4, 19), SmartPeriod(Date(2018, 4, 4), Date(2018, 4, 9)));
  }

  lemma BetweenMonthsSpaced()
    ensures Join(["between", "five", "and", "three", "months", "ago"])
         == "between" + " " + "five" + " " + "and" + " " + "three" + " " + "months" + " " + "ago"
  {
  }

  lemma BetweenMonthsJoined()
    ensures Join(["between", "five", "and", "three", "months", "ago"]) == "between five and three months ago"
  {
    BetweenMonthsSpaced();
  }

  lemma BetweenMonthsTokens()
    ensures Tokenize("between five and three months ago") == ["between", "five", "and", "three", "months", "ago"]
  {
    BetweenMonthsJoined();
    Phrase(["between", "five", "and", "three", "months", "ago"], "between five and three months ago");
  }

  lemma FiveThreeMonthsWords() ensures Cardinal("five") == Some(5) && Cardinal("three") == Some(3) && UnitWord("months") == Some(Month) { }

  /** "between five and three months ago" runs from five months back to three months back, each clamped to its month. */
  lemma BetweenMonthsWords(ref: Date)
    requires Valid(ref)
    ensures Parser.Period(["between", "five", "and", "three", "months", "ago"], ref) == Some(SmartPeriod(Delta.ShiftMonths(ref, -5), Delta.ShiftMonths(ref, -3)))
  {
    FiveThreeMonthsWords();
    Parser.PeriodBetweenWords("five", "three", "months", ref);
    Parser.ShiftMonthsOf(ref, Month, -5);
    Parser.ShiftMonthsOf(ref, Month, -3);
    Parser.ShiftMonotone(ref, Month, -5, -3);
    Parser.MinMaxOrdered(Delta.ShiftMonths(ref, -5), Delta.ShiftMonths(ref, -3));
  }

  /** From 2018-04-19, five and three months back are 2017-11-19 and 2018-01-19. */
  lemma BetweenMonths()
    ensures ParsePeriod("between five and three months ago", NativeValue(Date(2018, 4, 19))) == Some(SmartPeriod(Date(2017, 11, 19), Date(2018, 1, 19)))
  {
    BetweenMonthsTokens();
    BetweenMonthsWords(Date(2018, 4, 19));
    Delta.ShiftMonthsByIndex(Date(2018, 4, 19), -5, Date(2017, 11, 19));
    Delta.ShiftMonthsByIndex(Date(2018, 4, 19), -3, Date(2018, 1, 19));
    PeriodRow("between five and three months ago", ["between", "five", "and", "three", "months", "ago"], Date(2018, 4, 19), SmartPeriod(Date(2017, 11, 19), Date(2018, 1, 19)));
  }
}
