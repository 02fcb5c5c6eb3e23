/** The daily report window: the UTC calendar day before "today", rendered
    as the `full-date` form of section 5.6 of RFC 3339 (`YYYY-MM-DD`), which
    is what `toISOString().slice(0, 10)` yields for years 0000 to 9999. */
module Calendar {
  import opened Wrappers
  import opened Text

  /** A proleptic Gregorian date; months are numbered from 1. */
  datatype Date = Date(year: int, month: int, day: int)

  predicate IsLeapYear(y: int)
  {
    y % 4 == 0 && (y % 100 != 0 || y % 400 == 0)
  }

  function DaysInMonth(y: int, m: int): (n: int)
    requires 1 <= m <= 12
    ensures 28 <= n <= 31
  {
    if m == 2 then (if IsLeapYear(y) then 29 else 28)
    else if m == 4 || m == 6 || m == 9 || m == 11 then 30
    else 31
  }

  predicate ValidDate(d: Date)
  {
    1 <= d.month <= 12 && 1 <= d.day <= DaysInMonth(d.year, d.month)
  }

  /** Chronological order of dates. */
  predicate Before(a: Date, b: Date)
  {
    a.year < b.year
    || (a.year == b.year && (a.month < b.month || (a.month == b.month && a.day < b.day)))
  }

  /** `Date.UTC` reads a year argument from 0 to 99 as 1900 to 1999. */
  function UtcYear(y: int): int
  {
    if 0 <= y <= 99 then 1900 + y else y
  }

  /** The date that `Date.UTC` is asked for when given today's fields: the
      same month and day in the year as `Date.UTC` reads it. */
  function UtcArguments(d: Date): Date
  {
    Date(UtcYear(d.year), d.month, d.day)
  }

  /** `Date.UTC(year, month, day - 1)`: the year is read as `UtcYear` does, day
      0 of a month normalises to the last day of the previous month, and month
      0 to December of the previous year. */
  function Yesterday(d: Date): (r: Date)
    requires ValidDate(d)
    ensures ValidDate(r) && Before(r, UtcArguments(d))
  {
    var y := UtcYear(d.year);
    if d.day > 1 then Date(y, d.month, d.day - 1)
    else if d.month > 1 then Date(y, d.month - 1, DaysInMonth(y, d.month - 1))
    else Date(y - 1, 12, 31)
  }

  /** No valid date lies strictly between yesterday and the date `Date.UTC`
      was asked for, so `Yesterday` is its immediate Gregorian predecessor. */
  lemma YesterdayIsPredecessor(d: Date, e: Date)
    requires ValidDate(d) && ValidDate(e) && Before(e, UtcArguments(d))
    ensures e == Yesterday(d) || Before(e, Yesterday(d))
  {
    var y := UtcYear(d.year);
    if d.day == 1 && d.month > 1 && e.year == y && e.month == d.month - 1 {
      assert e.day <= DaysInMonth(y, d.month - 1);
    }
  }

  /** From year 100 on, `Date.UTC` takes the year as given, so yesterday is the
      day before today itself. */
  lemma YesterdayOfModernDate(d: Date, e: Date)
    requires ValidDate(d) && d.year >= 100
    requires ValidDate(e) && Before(e, d)
    ensures Before(Yesterday(d), d)
    ensures e == Yesterday(d) || Before(e, Yesterday(d))
  {
    assert UtcArguments(d) == d;
    YesterdayIsPredecessor(d, e);
  }

  /** Years 0 to 99 are moved into the twentieth century; year 100 is not. */
  lemma YesterdayTwoDigitYears()
    ensures Yesterday(Date(50, 3, 1)) == Date(1950, 2, 28)
    ensures Yesterday(Date(0, 1, 1)) == Date(1899, 12, 31)
    ensures Yesterday(Date(99, 12, 31)) == Date(1999, 12, 30)
    ensures Yesterday(Date(100, 1, 1)) == Date(99, 12, 31)
  {
  }

  lemma YesterdayExamples()
    ensures Yesterday(Date(2024, 3, 1)) == Date(2024, 2, 29)
    ensures Yesterday(Date(2023, 3, 1)) == Date(2023, 2, 28)
    ensures Yesterday(Date(1900, 3, 1)) == Date(1900, 2, 28)
    ensures Yesterday(Date(2000, 3, 1)) == Date(2000, 2, 29)
    ensures Yesterday(Date(2025, 1, 1)) == Date(2024, 12, 31)
    ensures Yesterday(Date(2025, 5, 1)) == Date(2025, 4, 30)
    ensures Yesterday(Date(2025, 10, 14)) == Date(2025, 10, 13)
  {
  }

  /** Years that `toISOString` writes with exactly four digits. */
  predicate FourDigitYear(d: Date)
  {
    0 <= d.year <= 9999
  }

  /** `isoDate(d)`: `YYYY-MM-DD` with zero padding. */
  function IsoDate(d: Date): (r: string)
    requires ValidDate(d) && FourDigitYear(d)
    ensures |r| == 10 && r[4] == '-' && r[7] == '-'
    ensures AllDigits(r[..4]) && AllDigits(r[5..7]) && AllDigits(r[8..])
  {
    PadDigits(d.year, 4) + "-" + PadDigits(d.month, 2) + "-" + PadDigits(d.day, 2)
  }

  /** Reads a `full-date`; anything else, or a date that does not exist, is `None`. */
  function ParseIsoDate(s: string): (r: Option<Date>)
    ensures r.Some? ==> ValidDate(r.value) && FourDigitYear(r.value)
  {
    if |s| == 10 && s[4] == '-' && s[7] == '-'
       && AllDigits(s[..4]) && AllDigits(s[5..7]) && AllDigits(s[8..])
    then
      var d := Date(DigitsValue(s[..4]), DigitsValue(s[5..7]), DigitsValue(s[8..]));
      if ValidDate(d) && FourDigitYear(d) then Some(d) else None
    else None
  }

  /** Reading the rendered date gives the date back. */
  lemma ParseIsoDateRoundTrip(d: Date)
    requires ValidDate(d) && FourDigitYear(d)
    ensures ParseIsoDate(IsoDate(d)) == Some(d)
  {
    var s := IsoDate(d);
    assert s[..4] == PadDigits(d.year, 4);
    assert s[5..7] == PadDigits(d.month, 2);
    assert s[8..] == PadDigits(d.day, 2);
    assert Pow10(4) == 10000 && Pow10(2) == 100;
    PadDigitsValue(d.year, 4);
    PadDigitsValue(d.month, 2);
    PadDigitsValue(d.day, 2);
  }

  lemma DashedShape(s: string)
    requires |s| == 10 && s[4] == '-' && s[7] == '-'
    ensures s == s[..4] + "-" + s[5..7] + "-" + s[8..]
  {
  }

  /** The rendering is canonical: every string that reads as a date is the
      rendering of that date. */
  lemma IsoDateOfParse(s: string)
    requires ParseIsoDate(s).Some?
    ensures IsoDate(ParseIsoDate(s).value) == s
  {
    var y, m, dd := s[..4], s[5..7], s[8..];
    PadDigitsOfValue(y);
    PadDigitsOfValue(m);
    PadDigitsOfValue(dd);
    var d := ParseIsoDate(s).value;
    assert d == Date(DigitsValue(y), DigitsValue(m), DigitsValue(dd));
    assert IsoDate(d) == y + "-" + m + "-" + dd;
    DashedShape(s);
  }

  /** The report date: yesterday (UTC) relative to today's UTC date. */
  function ReportDate(today: Date): (date: string)
    requires ValidDate(today) && FourDigitYear(Yesterday(today))
    ensures |date| == 10
    ensures ParseIsoDate(date) == Some(Yesterday(today))
  {
    ParseIsoDateRoundTrip(Yesterday(today));
    IsoDate(Yesterday(today))
  }

  lemma ReportDateExample()
    ensures ReportDate(Date(2024, 3, 1)) == "2024-02-29"
  {
    IsoDateExample();
  }

  lemma PadDigitsYear()
    ensures PadDigits(2024, 4) == "2024"
  {
    assert 2024 / 10 == 202 && 202 / 10 == 20 && 20 / 10 == 2 && 2 / 10 == 0;
    assert PadDigits(2, 1) == "2";
    assert PadDigits(20, 2) == "20";
    assert PadDigits(202, 3) == "202";
  }

  lemma PadDigitsMonthDay()
    ensures PadDigits(2, 2) == "02"
    ensures PadDigits(29, 2) == "29"
  {
    assert PadDigits(0, 1) == "0";
    assert PadDigits(2, 1) == "2";
  }

  lemma IsoDateExample()
    ensures IsoDate(Yesterday(Date(2024, 3, 1))) == "2024-02-29"
  {
    assert Yesterday(Date(2024, 3, 1)) == Date(2024, 2, 29);
    PadDigitsYear();
    PadDigitsMonthDay();
  }
}
