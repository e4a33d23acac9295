# nadar in Dafny

A model of the `nadar` date library as its test suite pins it down. The library
turns friendly date and period phrases ("three months ago", "next quarter",
"between 15 and 10 days ago") into calendar dates and date ranges relative to a
reference day. It also computes the first and last day of the year, quarter, month
or Monday-to-Sunday week that holds a date, and it shifts dates by years, months
and days, clamping the day to the end of a short month.

A date can arrive in three kinds: an ISO `YYYY-MM-DD` string, a native date
object, or the library's own `SmartDate`. `get_start`, `get_end` and `delta_date`
answer in the kind they were given. `parse_reference` answers with a `SmartDate`,
and `parse_period` answers with a `SmartPeriod` of two `SmartDate`s.

Modules:

- `Calendar`: the proleptic Gregorian calendar.
  - Leap years and month lengths.
  - A day number that gives consecutive days consecutive numbers, as Python's `date.toordinal` does.
  - Weekdays, with Monday as 0.
  - Plain day addition.
- `Boundaries`: the first and last day of the day, week, month, quarter or year that contains a date.
- `Delta`: `delta_date` on calendar dates. Months come first, with a year counted as twelve months and the day clamped. Days are added after that.
- `Numerals`: decimal digit strings, read as numbers and written zero-padded.
- `SmartDates`:
  - the three kinds of date value;
  - the strict ISO reader and writer;
  - taking a value apart (`Of`) and rendering a date in a kind (`Render`, `Echo`).
- `Phrases`: whitespace tokenisation with ASCII case folding, number words and digit cardinals, and unit words.
- `Parser`: the reference grammar and the period grammar, over tokens and calendar dates.
  - Reference phrases: `today`, `yesterday`, `tomorrow`, a literal date, and `<n> <unit> ago`.
  - Period phrases: `this <unit>`, `last <unit>`, `next <unit>`, and `between <a> and <b> <unit> ago`.
- `Nadar`: the five public functions over date values of any kind. Every failure is `None`.
- `Cases`: the rows of the parameter tables in `tests/test_nadar.py`, each stated and proved about the public functions.

`this <unit>` is pinned by a single table row. On Tuesday 2018-05-08, "this week"
is (2018-05-07, 2018-05-07): the Monday alone, not the whole week. Other rules fit
that one row as well, for example "the period start alone". The model reads the
row as follows: `this <unit>` runs from the period's start to the day before the
reference. When the reference is itself the period's first day there is no
earlier day, so the period is that day alone.

## Model

| member | source | states |
|---|---|---|
| Calendar.AddDays | tests/test_nadar.py:114 | adding n days gives a valid date whose day number is exactly n more, so additions roll over month ends |
| Calendar.AddDaysByOrdinal | tests/test_nadar.py:114 | the valid date whose day number is n more than d's is the one AddDays gives: the day number determines the sum |
| Calendar.AddDaysCompose | tests/test_nadar.py:114 | adding m days and then n days is adding m + n days |
| Calendar.AddDaysOrder | tests/test_nadar.py:135-137 | day addition is monotone both ways: d + m <= d + n exactly when m <= n |
| Calendar.OrdinalOrder | tests/test_nadar.py:183-192 | on valid dates, calendar order and day-number order agree (both directions), and equal day numbers mean equal dates |
| Calendar.WeekdayAddDays | tests/test_nadar.py:44-52 | adding n days advances the weekday by n modulo 7 |
| Calendar.OrdinalNextMonth | tests/test_nadar.py:94 | the first day of the next month is the day after the last day of this month, across year ends too |
| Calendar.Ordinal | tests/test_nadar.py:44-52 | the day number of a valid date lies in its year's block: after every day of the earlier years and within the days of its own year. OrdinalOrder and AddDays make consecutive days consecutive numbers |
| Calendar.OrdinalOrigin | tests/test_nadar.py:44-52 | day 1 is 0001-01-01, and it is a Monday (weekday 0), as Python's toordinal and weekday number them |
| Calendar.Weekday | tests/test_nadar.py:44-52 | the weekday is 0..6 with Monday = 0. OrdinalOrigin fixes the origin and WeekdayAddDays says it advances by one each day |
| Calendar.DaysBeforeYearFormula | tests/test_nadar.py:17-25 | the recursive day count before a year equals 365 per year plus the Gregorian leap days (every 4th year, not centuries, but every 400th) |
| Boundaries.QuarterFirstMonth | tests/test_nadar.py:26-34 | a quarter starts in month 1, 4, 7 or 10, and that month is at most two months before the given month |
| Boundaries.QuarterLastMonth | tests/test_nadar.py:73-84 | a quarter ends in month 3, 6, 9 or 12, and the given month is at most two months before it |
| Boundaries.Start | tests/test_nadar.py:17-52 | the first day of the period holding d, never after d. Year gives Jan 1. Quarter gives the 1st of Jan/Apr/Jul/Oct of d's quarter. Month gives day 1. Week gives the Monday at most six days before d. Day gives d |
| Boundaries.End | tests/test_nadar.py:64-102 | the last day of the period holding d, never before d. Year gives Dec 31. Quarter gives the last day of the quarter's third month. Month gives the month's last day. Week gives the Sunday at most six days after d. Day gives d |
| Boundaries.WeekEnd | tests/test_nadar.py:94-102 | the week end is a Sunday at most six days on from d |
| Boundaries.Containment | tests/test_nadar.py:17-102 | for every unit, start <= d <= end |
| Boundaries.WeekSpansSevenDays | tests/test_nadar.py:94-102 | the week's end is its Monday plus six days |
| Boundaries.StartIdempotent | tests/test_nadar.py:46 | the start of a start is that start, so a Monday such as 2018-01-01 is its own week start |
| Boundaries.EndIdempotent | tests/test_nadar.py:64-102 | the end of an end is that end |
| Boundaries.SamePeriod | tests/test_nadar.py:17-102 | a period's start and its end name the same period: the start of the end is the start, and the end of the start is the end |
| Boundaries.WeekStartUnique | tests/test_nadar.py:44-52 | the week start is the only Monday among the seven days ending at d |
| Boundaries.WeekEndFromStart | tests/test_nadar.py:94-102 | the date six days after the week's Monday is the week end |
| Delta.ShiftMonths | tests/test_nadar.py:115 | the result is exactly k months on. It keeps the day when that month has it, and otherwise takes the month's last day |
| Delta.ShiftMonthsByIndex | tests/test_nadar.py:115 | any valid date k months on with the same clamped day is the shift's result |
| Delta.ShiftMonthsZero | tests/test_nadar.py:114 | a zero-month shift leaves the date as it is |
| Delta.ShiftMonthsRoundTrip | tests/test_nadar.py:115 | for a day every month has (at most 28), shifting by k months and then by -k gives the date back |
| Delta.ShiftMonthsMonotone | tests/test_nadar.py:188-192 | a larger month offset never gives an earlier date |
| Delta.MonthIndexInjective | tests/test_nadar.py:115 | month numbers name (year, month) pairs one to one and in order |
| Delta.DeltaDays | tests/test_nadar.py:114 | a pure day offset is plain day addition: the day number moves by exactly that much |
| Delta.DeltaMonths | tests/test_nadar.py:115 | a pure month offset lands exactly k months away, with the day clamped to that month's end |
| Delta.DeltaYears | tests/test_nadar.py:131 | a year offset is the same shift as twelve times as many months |
| Delta.DeltaDate | tests/test_nadar.py:111-124 | delta_date on calendar dates always gives a valid date. DeltaCombined, DeltaDays and DeltaDaysAfterMonths say which one |
| Delta.DeltaCombined | tests/test_nadar.py:111-124 | years and months together are one offset of 12 * years + months months, clamped once: the result lands that many months away, keeping its day when that month has it and otherwise taking the month's last day |
| Delta.DeltaLeapDayYearAndMonth | tests/test_nadar.py:111-124 | the single clamp on an example: 2020-02-29 plus one year and one month is 2021-03-29, while clamping after the year and again after the month would give 2021-03-28 |
| Delta.DeltaDaysAfterMonths | tests/test_nadar.py:111-124 | the day offset is applied after the month shift and counts from the clamped date |
| Numerals.Pad | tests/test_nadar.py:17 | the zero-padded numeral has exactly w digits |
| Numerals.DigitsValue | tests/test_nadar.py:17 | an s-digit string denotes a number below 10^\|s\| |
| Numerals.DigitsValuePad | tests/test_nadar.py:17 | writing a number zero-padded and reading it back gives the number |
| Numerals.PadDigitsValue | tests/test_nadar.py:17 | reading a digit string and writing it back at its own width gives the string, leading zeros included |
| SmartDates.ParseIso | tests/test_nadar.py:138 | an accepted string is a valid date in the years 1..9999 |
| SmartDates.FormatIso | tests/test_nadar.py:17-19 | the text has ten characters with dashes at positions 4 and 7 |
| SmartDates.ParseFormat | tests/test_nadar.py:17-19 | reading a formatted date gives the date back |
| SmartDates.FormatParse | tests/test_nadar.py:17-19 | only the canonical spelling is accepted: an accepted string is the formatted form of what it reads as |
| SmartDates.Of | tests/test_nadar.py:55-58 | a value that is accepted yields an in-range date and remembers the value's kind |
| SmartDates.Render | tests/test_nadar.py:58 | a date rendered in kind k is a value of kind k |
| SmartDates.OfRender | tests/test_nadar.py:58 | reading back a rendered date gives the same date and kind |
| SmartDates.RenderOf | tests/test_nadar.py:108 | rendering an accepted value's date in its own kind gives the value back |
| SmartDates.Echo | tests/test_nadar.py:125 | a derived date is answered exactly when its year is in 1..9999, in the requested kind, and reads back as that date |
| SmartDates.SameDateAcrossKinds | tests/test_nadar.py:142 | two renderings compare equal as dates, whatever their kinds, exactly when they hold the same date |
| Phrases.Tokenize | tests/test_nadar.py:141-142 | every token is non-empty, has no whitespace and no upper-case letter. TokenizeLower and TokenizeLayout say which tokens come out |
| Phrases.TokenizeLower | tests/test_nadar.py:195-196 | case does not matter: folding the text to lower case first gives the same tokens |
| Phrases.TokenizeBlank | tests/test_nadar.py:195-196 | whitespace before the text is dropped |
| Phrases.TokenizeLayout | tests/test_nadar.py:195-196 | words separated by whitespace runs of any length, with any whitespace before and after, tokenise to those words folded to lower case |
| Phrases.TokenizeJoin | tests/test_nadar.py:131-138 | tokenising words joined by single spaces gives those words back |
| Phrases.Cardinal | tests/test_nadar.py:185 | a non-empty digit string reads as its decimal value |
| Phrases.CardinalOfDigits | tests/test_nadar.py:185 | every zero-padded numeral reads back as its number |
| Nadar.ParseKind | tests/test_nadar.py:17-52 | a name is accepted exactly when it is year, quarter, month or week, and each of those gives the unit of the same name |
| Nadar.GetStart | tests/test_nadar.py:55-58 | answers exactly when the period name and the date are valid. The answer has the date's kind and holds the period start |
| Nadar.GetEnd | tests/test_nadar.py:105-108 | answers exactly when the period name and the date are valid and the end is a year a date can hold. The answer has the date's kind and holds the period end |
| Nadar.DeltaDate | tests/test_nadar.py:122-125 | answers exactly when the date is valid and the shifted date is in range. The answer has the date's kind and holds the calendar delta_date |
| Nadar.ParseReference | tests/test_nadar.py:141-142 | the answer is an in-range SmartDate, given exactly when the grammar yields an in-range date from the tokens, and it is that date |
| Nadar.ParsePeriod | tests/test_nadar.py:195-196 | the answer is an in-range period with start <= end, given exactly when the grammar yields an in-range period from the tokens, and it is that period |
| Nadar.GetStartEcho | tests/test_nadar.py:55-58 | a date rendered in kind k gets its period start rendered in k |
| Nadar.GetEndEcho | tests/test_nadar.py:105-108 | a date rendered in kind k gets its period end rendered in k |
| Nadar.DeltaDateEcho | tests/test_nadar.py:122-125 | a date rendered in kind k gets its shifted date rendered in k |
| Nadar.GetBoundsContain | tests/test_nadar.py:55-58 | in every kind, get_start <= date <= get_end |
| Nadar.GetBoundsIdempotent | tests/test_nadar.py:46 | get_start of a get_start answer is that answer, and likewise for get_end |
| Nadar.WeekStartInRange | tests/test_nadar.py:44-52 | the week start of an in-range date is never before year 1, so get_start never fails for a valid date |
| Nadar.ReferenceLiteral | tests/test_nadar.py:138 | a written ISO date parses as that date, whatever the reference |
| Parser.Shift | tests/test_nadar.py:131-134 | shifting a valid date by whole units gives a valid date |
| Parser.ShiftDays | tests/test_nadar.py:133 | day and week shifts move the day number by k and by 7k |
| Parser.ShiftMonthsOf | tests/test_nadar.py:131-134 | month, quarter and year shifts are clamped month shifts by k, 3k and 12k months |
| Parser.ShiftMonotone | tests/test_nadar.py:183-192 | for every unit, a larger offset never gives an earlier date |
| Parser.QuarterShiftAligned | tests/test_nadar.py:163-172 | shifting the first month of a quarter by whole quarters lands on the first month of a quarter |
| Parser.ReferenceKeywordDays | tests/test_nadar.py:135-137 | "today" is the reference, "yesterday" the day before and "tomorrow" the day after |
| Parser.Reference | tests/test_nadar.py:131-138 | the parse_reference grammar accepts only "today", "yesterday", "tomorrow", an ISO date, and "\<cardinal\> \<unit\> ago" with known words, and every date it yields is valid. ReferenceKeywordDays, ReferenceAgoShift and Nadar.ReferenceLiteral say which date each phrase gives |
| Parser.ReferenceAgoShift | tests/test_nadar.py:131-134 | "\<n\> \<unit\> ago" is the reference shifted back by n units |
| Parser.This | tests/test_nadar.py:153-157 | "this \<unit\>" starts at the period start. It ends on the reference exactly when the reference is the period start, and otherwise on the day before the reference |
| Parser.Adjacent | tests/test_nadar.py:148-182 | "last/next \<unit\>" is a period of valid dates with start <= end |
| Parser.Between | tests/test_nadar.py:183-192 | "between" yields a period of valid dates with start <= end |
| Parser.PeriodThisWords | tests/test_nadar.py:153-157 | the tokens "this \<unit\>" parse to the this-period of that unit |
| Parser.PeriodAdjacentWords | tests/test_nadar.py:148-182 | the tokens "last \<unit\>" and "next \<unit\>" parse to the period one unit before or after |
| Parser.PeriodBetweenWords | tests/test_nadar.py:183-192 | the tokens "between a and b \<unit\> ago" parse to the period between the two offsets back |
| Parser.Period | tests/test_nadar.py:145-196 | the parse_period grammar accepts only "this/last/next \<unit\>" and "between \<a\> and \<b\> \<unit\> ago" with known words, and every period it yields has valid ends and start <= end. PeriodThisWords, PeriodAdjacentWords and PeriodBetweenWords say which period each phrase gives |
| Parser.NextMonthStart | tests/test_nadar.py:178-182 | the month after the reference's starts on the first day of the next month |
| Parser.NextQuarterStart | tests/test_nadar.py:168-172 | the quarter after the reference's starts on the first day after its last month |
| Parser.NextYearStart | tests/test_nadar.py:173-177 | the year after the reference's starts on the next January 1 |
| Parser.LastIsPrevious | tests/test_nadar.py:148-167 | "last \<unit\>" ends on the day before the current period starts and is a whole period of that unit |
| Parser.NextIsFollowing | tests/test_nadar.py:168-182 | "next \<unit\>" starts on the day after the current period ends and is a whole period of that unit |
| Parser.BetweenAgo | tests/test_nadar.py:183-192 | with the larger offset first, "between" runs from a units back to b units back |
| Cases.GetStartYearRows | tests/test_nadar.py:17-25 | the nine get_start year rows, in all three kinds |
| Cases.GetStartQuarterRows | tests/test_nadar.py:26-34 | the nine get_start quarter rows |
| Cases.GetStartMonthRows | tests/test_nadar.py:35-43 | the nine get_start month rows |
| Cases.GetStartWeekRows | tests/test_nadar.py:44-52 | the nine get_start week rows, including the Monday that is its own week start |
| Cases.GetEndYearRows | tests/test_nadar.py:64-72 | the nine get_end year rows |
| Cases.GetEndQuarterRows | tests/test_nadar.py:73-84 | the twelve get_end quarter rows |
| Cases.GetEndMonthRows | tests/test_nadar.py:85-93 | the nine get_end month rows |
| Cases.GetEndWeekRows | tests/test_nadar.py:94-102 | the nine get_end week rows, including week ends in the next month |
| Cases.DeltaDateDaysRow | tests/test_nadar.py:114-118 | 2018-03-30 plus six days is 2018-04-05, in all three kinds |
| Cases.DeltaDateMonthsRow | tests/test_nadar.py:115-119 | 2018-03-31 minus one month is clamped to 2018-02-28, in all three kinds |
| Cases.OneYearAgo | tests/test_nadar.py:131 | "one year ago" from 2018-05-08 is 2017-05-08 |
| Cases.ThreeMonthsAgo | tests/test_nadar.py:132 | "three months ago" from 2018-05-08 is 2018-02-08 |
| Cases.FiveDaysAgo | tests/test_nadar.py:133 | "five days ago" from 2018-05-08 is 2018-05-03 |
| Cases.TwoQuartersAgo | tests/test_nadar.py:134 | "two quarters ago" from 2018-05-08 is 2017-11-08 |
| Cases.Yesterday | tests/test_nadar.py:135 | "yesterday" from 2018-05-08 is 2018-05-07 |
| Cases.Today | tests/test_nadar.py:136 | "today" from 2018-05-08 is 2018-05-08 |
| Cases.Tomorrow | tests/test_nadar.py:137 | "tomorrow" from 2018-05-08 is 2018-05-09 |
| Cases.LiteralDate | tests/test_nadar.py:138 | "2018-05-08" parses to that date, as a SmartDate |
| Cases.LastMonth | tests/test_nadar.py:148-152 | from any day of May, "last month" is the whole of April (for 2018-05-08 this is 2018-04-01..2018-04-30) |
| Cases.ThisWeek | tests/test_nadar.py:153-157 | "this week" from Tuesday 2018-05-08 is (2018-05-07, 2018-05-07) |
| Cases.LastYear | tests/test_nadar.py:158-162 | from any reference after year 1, "last year" is the whole previous year (for 2018-05-08 this is 2017-01-01..2017-12-31) |
| Cases.LastQuarter | tests/test_nadar.py:163-167 | from any day of a second quarter, "last quarter" is Jan 1..Mar 31 of that year (for 2017-05-03 this is 2017-01-01..2017-03-31) |
| Cases.NextQuarter | tests/test_nadar.py:168-172 | from any day of a second quarter, "next quarter" is Jul 1..Sep 30 of that year (for 2017-05-03 this is 2017-07-01..2017-09-30) |
| Cases.NextYear | tests/test_nadar.py:173-177 | from any reference before year 9999, "next year" is the whole following year (for 2017-05-03 this is 2018-01-01..2018-12-31) |
| Cases.NextDay | tests/test_nadar.py:178-182 | "next day" from 2017-05-03 is the single day 2017-05-04 |
| Cases.BetweenDays | tests/test_nadar.py:183-187 | "between 15 and 10 days ago" from 2018-04-19 is 2018-04-04..2018-04-09 |
| Cases.BetweenMonthsWords | tests/test_nadar.py:188-192 | from any reference, "between five and three months ago" runs from five to three months back, each end clamped |
| Cases.BetweenMonths | tests/test_nadar.py:188-192 | "between five and three months ago" from 2018-04-19 is 2017-11-19..2018-01-19 |

## Left out

- The library's implementation is not part of this model. Only its behaviour as the parameter tables fix it is modelled. Python's `str`, `datetime.date` and `SmartDate` classes become the `Repr` tag and a plain (year, month, day) record. `isinstance` becomes `KindOf`.
- Error kinds and messages are not modelled. A malformed date string, an unknown period name and an unparseable phrase all fail as `None`. No failure is exercised by the tables.
- Dates outside the years 1..9999, which Python's date type cannot hold, also fail as `None`. Calendar arithmetic itself is on unbounded years.
- Delta.DeltaDate: only the final date is checked against the years 1..9999. The date after the month shift is not checked, so a shift that passes through year 10000 and comes back with the day offset is answered, where a Python date could not hold the intermediate date.
- Number words: the tables use only one, two, three and five. The model also accepts four and six to ten. Nothing is proved about words the tables do not use.
- Parser.Between: a "between" phrase with the smaller offset first is ordered into (earlier, later), so that start <= end always holds. No table row exercises that order, so the only lemma about it (`BetweenAgo`) assumes the larger offset comes first.
- Parser.This: "this day" and the case where the reference is the period's first day follow the interpretation given above. Only "this week" on a Tuesday is pinned by a row.
- Case folding covers ASCII letters only. Whitespace is space, tab, line feed, carriage return, vertical tab and form feed. Unicode case mapping and other Unicode spaces are not modelled.
- Time of day, time zones and locale-dependent text do not appear in the library's tested behaviour and are not modelled.
- pytest's parametrisation and assertion machinery are not modelled. Each table block or row is one lemma instead.
