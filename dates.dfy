/**
 * Calendar dates in the proleptic Gregorian calendar, their day numbers, and
 * the extended ISO 8601 calendar-date form YYYY-MM-DD (section 4.1.2.2 of
 * ISO 8601:2004), restricted to the years 1..9999 that the date type used by
 * the pipeline supports.
 */
module Dates {
  import opened Common

  datatype Date = Date(year: int, month: int, day: int)

  predicate IsLeapYear(y: int) {
    y % 4 == 0 && (y % 100 != 0 || y % 400 == 0)
  }

  function DaysInMonth(y: int, m: int): (n: int)
    requires 1 <= m <= 12
    ensures 28 <= n <= 31
  {
    if m == 2 then (if IsLeapYear(y) then 29 else 28)
    else if m == 4 || m == 6 || m == 9 || m == 11 then 30
    else 31
  }

  function DaysInYear(y: int): int {
    if IsLeapYear(y) then 366 else 365
  }

  predicate ValidDate(d: Date) {
    1 <= d.year <= 9999 && 1 <= d.month <= 12 && 1 <= d.day <= DaysInMonth(d.year, d.month)
  }

  /** The dates a DATE column or Python date can hold. */
  type CalendarDate = d: Date | ValidDate(d) witness Date(1970, 1, 1)

  /** Number of days in the months of year y that come before month m. */
  function DaysBeforeMonth(y: int, m: int): nat
    requires 1 <= m <= 13
  {
    if m == 1 then 0 else DaysBeforeMonth(y, m - 1) + DaysInMonth(y, m - 1)
  }

  lemma DaysBeforeMonthMonotone(y: int, m: int, m': int)
    requires 1 <= m <= m' <= 13
    ensures DaysBeforeMonth(y, m) + (if m < m' then DaysInMonth(y, m) else 0) <= DaysBeforeMonth(y, m')
    decreases m' - m
  {
    if m < m' - 1 {
      DaysBeforeMonthMonotone(y, m, m' - 1);
    }
  }

  lemma DaysBeforeMonthTotal(y: int)
    ensures DaysBeforeMonth(y, 13) == DaysInYear(y)
  {
    var feb := if IsLeapYear(y) then 29 else 28;
    assert DaysBeforeMonth(y, 2) == 31;
    assert DaysBeforeMonth(y, 3) == 31 + feb;
    assert DaysBeforeMonth(y, 4) == 62 + feb;
    assert DaysBeforeMonth(y, 5) == 92 + feb;
    assert DaysBeforeMonth(y, 6) == 123 + feb;
    assert DaysBeforeMonth(y, 7) == 153 + feb;
    assert DaysBeforeMonth(y, 8) == 184 + feb;
    assert DaysBeforeMonth(y, 9) == 215 + feb;
    assert DaysBeforeMonth(y, 10) == 245 + feb;
    assert DaysBeforeMonth(y, 11) == 276 + feb;
    assert DaysBeforeMonth(y, 12) == 306 + feb;
  }

  /** Number of days in the years 1 .. y-1 (the closed form of the Gregorian rule). */
  function DaysBeforeYear(y: int): int
    requires y >= 1
  {
    var p := y - 1;
    365 * p + p / 4 - p / 100 + p / 400
  }

  lemma DaysBeforeYearStep(y: int)
    requires y >= 1
    ensures DaysBeforeYear(y + 1) == DaysBeforeYear(y) + DaysInYear(y)
  {
    var p := y - 1;
    assert y / 4 - p / 4 == if y % 4 == 0 then 1 else 0;
    assert y / 100 - p / 100 == if y % 100 == 0 then 1 else 0;
    assert y / 400 - p / 400 == if y % 400 == 0 then 1 else 0;
  }

  lemma {:induction false} DaysBeforeYearMonotone(y: int, y': int)
    requires 1 <= y < y'
    ensures DaysBeforeYear(y) + DaysInYear(y) <= DaysBeforeYear(y')
    decreases y' - y
  {
    DaysBeforeYearStep(y);
    if y + 1 < y' {
      DaysBeforeYearMonotone(y + 1, y');
    }
  }

  lemma DaysBeforeYearBounds(y: int)
    requires y >= 1
    ensures 365 * (y - 1) <= DaysBeforeYear(y) <= 366 * (y - 1)
  {
    var p := y - 1;
    assert p / 400 <= p / 100 <= p / 4 <= p;
  }

  /** Day number of 9999-12-31, the last date the date type can hold. */
  const MaxOrdinal: int := DaysBeforeYear(10000) - 1

  lemma DayNumberRange(y: int, m: int, day: int)
    requires ValidDate(Date(y, m, day))
    ensures DaysBeforeYear(y) <= DaysBeforeYear(y) + DaysBeforeMonth(y, m) + day - 1 < DaysBeforeYear(y) + DaysInYear(y)
    ensures 0 <= DaysBeforeYear(y) + DaysBeforeMonth(y, m) + day - 1 <= MaxOrdinal
  {
    DaysBeforeMonthTotal(y);
    DaysBeforeMonthMonotone(y, m, 13);
    DaysBeforeYearBounds(y);
    if y < 9999 {
      DaysBeforeYearMonotone(y, 9999);
    }
    DaysBeforeYearStep(9999);
  }

  /** Day number of a date: the days elapsed since 0001-01-01. */
  function Ordinal(d: Date): (n: int)
    requires ValidDate(d)
    ensures 0 <= n <= MaxOrdinal
    ensures DaysBeforeYear(d.year) <= n < DaysBeforeYear(d.year) + DaysInYear(d.year)
  {
    DayNumberRange(d.year, d.month, d.day);
    DaysBeforeYear(d.year) + DaysBeforeMonth(d.year, d.month) + d.day - 1
  }

  /** The year holding day number n, searched upward from a year y known not to lie after it. */
  function YearOf(n: int, y: int): (r: int)
    requires y >= 1 && DaysBeforeYear(y) <= n
    ensures r >= y && DaysBeforeYear(r) <= n < DaysBeforeYear(r) + DaysInYear(r)
    decreases n - DaysBeforeYear(y)
  {
    DaysBeforeYearStep(y);
    if n < DaysBeforeYear(y) + DaysInYear(y) then y else YearOf(n, y + 1)
  }

  /** The date of day r of year y (counting from 0), searched upward from month m. */
  function MonthOf(y: int, r: int, m: int): (d: Date)
    requires 1 <= m <= 12 && DaysBeforeMonth(y, m) <= r < DaysBeforeMonth(y, 13)
    ensures d.year == y && m <= d.month <= 12 && 1 <= d.day <= DaysInMonth(y, d.month)
    ensures DaysBeforeMonth(y, d.month) + d.day - 1 == r
    decreases 12 - m
  {
    if r < DaysBeforeMonth(y, m + 1) then Date(y, m, r - DaysBeforeMonth(y, m) + 1)
    else MonthOf(y, r, m + 1)
  }

  lemma YearWithinRange(n: int, y: int)
    requires y >= 1 && DaysBeforeYear(y) <= n <= MaxOrdinal
    ensures y <= 9999
  {
    if y > 10000 {
      DaysBeforeYearMonotone(10000, y);
    }
  }

  /** The date whose day number is n: the inverse of Ordinal. */
  function FromOrdinal(n: int): (d: Date)
    requires 0 <= n <= MaxOrdinal
    ensures ValidDate(d) && Ordinal(d) == n
  {
    DaysBeforeYearBounds(n / 366 + 1);
    var y := YearOf(n, n / 366 + 1);
    DaysBeforeMonthTotal(y);
    YearWithinRange(n, y);
    MonthOf(y, n - DaysBeforeYear(y), 1)
  }

  /** Distinct valid dates have distinct day numbers. */
  lemma {:induction false} OrdinalInjective(d: Date, e: Date)
    requires ValidDate(d) && ValidDate(e) && Ordinal(d) == Ordinal(e)
    ensures d == e
  {
    if d.year < e.year {
      DaysBeforeYearMonotone(d.year, e.year);
    } else if e.year < d.year {
      DaysBeforeYearMonotone(e.year, d.year);
    }
    assert d.year == e.year;
    if d.month < e.month {
      DaysBeforeMonthMonotone(d.year, d.month, e.month);
    } else if e.month < d.month {
      DaysBeforeMonthMonotone(d.year, e.month, d.month);
    }
  }

  /** Round trip date → day number → date. */
  lemma OrdinalRoundTrip(d: Date)
    requires ValidDate(d)
    ensures FromOrdinal(Ordinal(d)) == d
  {
    OrdinalInjective(FromOrdinal(Ordinal(d)), d);
  }

  /**
   * The date k days after d (before it when k < 0), or None when that date
   * falls outside 0001-01-01 .. 9999-12-31, where Python's date arithmetic
   * raises OverflowError.
   */
  function AddDays(d: Date, k: int): (r: Option<Date>)
    requires ValidDate(d)
    ensures r.Some? <==> 0 <= Ordinal(d) + k <= MaxOrdinal
    ensures r.Some? ==> ValidDate(r.value) && Ordinal(r.value) == Ordinal(d) + k
  {
    var n := Ordinal(d) + k;
    if 0 <= n <= MaxOrdinal then Some(FromOrdinal(n)) else None
  }

  lemma AddDaysTo(d: Date, k: int, e: Date)
    requires ValidDate(d) && ValidDate(e) && Ordinal(e) == Ordinal(d) + k
    ensures AddDays(d, k) == Some(e)
  {
    OrdinalInjective(AddDays(d, k).value, e);
  }

  // ---------------------------------------------------------------------
  // The textual form YYYY-MM-DD

  predicate IsDigit(c: char) { '0' <= c <= '9' }

  function DigitValue(c: char): int requires IsDigit(c) { c as int - '0' as int }

  function DigitChar(v: int): (c: char)
    requires 0 <= v <= 9
    ensures IsDigit(c) && DigitValue(c) == v
  {
    ('0' as int + v) as char
  }

  /** v written with exactly two decimal digits, zero-padded. */
  function Pad2(v: int): string
    requires 0 <= v < 100
  {
    [DigitChar(v / 10), DigitChar(v % 10)]
  }

  /** v written with exactly four decimal digits, zero-padded. */
  function Pad4(v: int): string
    requires 0 <= v < 10000
  {
    [DigitChar(v / 1000), DigitChar(v / 100 % 10), DigitChar(v / 10 % 10), DigitChar(v % 10)]
  }

  function Format(d: Date): (s: string)
    requires ValidDate(d)
    ensures |s| == 10 && s[4] == '-' && s[7] == '-'
  {
    Pad4(d.year) + "-" + Pad2(d.month) + "-" + Pad2(d.day)
  }

  predicate AllDigits(t: string) {
    forall i :: 0 <= i < |t| ==> IsDigit(t[i])
  }

  /** Shape YYYY-MM-DD: ten characters, digits with dashes at offsets 4 and 7. */
  predicate WellShaped(s: string) {
    |s| == 10 && s[4] == '-' && s[7] == '-' && AllDigits(s[..4]) && AllDigits(s[5..7]) && AllDigits(s[8..])
  }

  function Value2(t: string): int
    requires |t| == 2 && AllDigits(t)
  {
    10 * DigitValue(t[0]) + DigitValue(t[1])
  }

  function Value4(t: string): int
    requires |t| == 4 && AllDigits(t)
  {
    1000 * DigitValue(t[0]) + 100 * DigitValue(t[1]) + 10 * DigitValue(t[2]) + DigitValue(t[3])
  }

  /**
   * Reads a YYYY-MM-DD string. A string of another shape, or one naming a
   * day the calendar does not have (year 0, month 13, 30 February), is
   * MalformedDate.
   */
  function Parse(s: string): (r: Result<Date>)
    ensures r.Ok? ==> ValidDate(r.value)
    ensures r.Err? ==> r.error == MalformedDate
  {
    if !WellShaped(s) then Err(MalformedDate)
    else
      var d := Date(Value4(s[..4]), Value2(s[5..7]), Value2(s[8..]));
      if ValidDate(d) then Ok(d) else Err(MalformedDate)
  }

  lemma Value2Pad2(v: int)
    requires 0 <= v < 100
    ensures AllDigits(Pad2(v)) && Value2(Pad2(v)) == v
  {
  }

  lemma Value4Pad4(v: int)
    requires 0 <= v < 10000
    ensures AllDigits(Pad4(v)) && Value4(Pad4(v)) == v
  {
    var t := Pad4(v);
    var h, e := v / 100, v / 10;
    assert v / 1000 == h / 10;
    assert h == 10 * (h / 10) + h % 10;
    assert e == 10 * h + e % 10;
    assert v == 10 * e + v % 10;
    assert Value4(t) == 10 * (10 * (10 * (h / 10) + h % 10) + e % 10) + v % 10;
  }

  /** Round trip date → text → date. */
  lemma ParseFormat(d: Date)
    requires ValidDate(d)
    ensures Parse(Format(d)) == Ok(d)
  {
    var s := Format(d);
    assert s[..4] == Pad4(d.year) && s[5..7] == Pad2(d.month) && s[8..] == Pad2(d.day);
    Value4Pad4(d.year);
    Value2Pad2(d.month);
    Value2Pad2(d.day);
  }

  lemma DigitCharValue(c: char)
    requires IsDigit(c)
    ensures DigitChar(DigitValue(c)) == c
  {
  }

  lemma Pad2Value2(t: string)
    requires |t| == 2 && AllDigits(t)
    ensures Pad2(Value2(t)) == t
  {
    DigitCharValue(t[0]);
    DigitCharValue(t[1]);
    assert Pad2(Value2(t)) == [t[0], t[1]];
  }

  lemma Pad4Value4(t: string)
    requires |t| == 4 && AllDigits(t)
    ensures Pad4(Value4(t)) == t
  {
    var a, b, c, d := DigitValue(t[0]), DigitValue(t[1]), DigitValue(t[2]), DigitValue(t[3]);
    var v := Value4(t);
    assert 0 <= 100 * b + 10 * c + d < 1000;
    assert v / 1000 == a;
    assert v / 100 % 10 == b by { assert v / 100 == 10 * a + b; }
    assert v / 10 % 10 == c by { assert v / 10 == 100 * a + 10 * b + c; }
    assert v % 10 == d;
    DigitCharValue(t[0]);
    DigitCharValue(t[1]);
    DigitCharValue(t[2]);
    DigitCharValue(t[3]);
    assert Pad4(v) == [t[0], t[1], t[2], t[3]];
  }

  /** Round trip text → date → text: every accepted string is already in the canonical form. */
  lemma FormatParse(s: string)
    requires Parse(s).Ok?
    ensures Format(Parse(s).value) == s
  {
    Pad4Value4(s[..4]);
    Pad2Value2(s[5..7]);
    Pad2Value2(s[8..]);
    assert s == s[..4] + "-" + s[5..7] + "-" + s[8..];
  }

  // ---------------------------------------------------------------------
  // The date window around a query date

  /** The window reaches 26 weeks to either side of the query date. */
  const WindowWeeks: int := 26
  const WindowDays: int := 7 * WindowWeeks

  /**
   * The two ends of the window as the text handed to the store: the query
   * date is parsed, moved 26 weeks back and forth, and printed again.
   */
  function WindowText(date: string): (r: Result<(string, string)>)
    ensures Parse(date).Err? ==> r == Err(MalformedDate)
  {
    match Parse(date)
    case Err(e) => Err(e)
    case Ok(q) =>
      match AddDays(q, -WindowDays)
      case None => Err(DateOutOfRange)
      case Some(start) =>
        match AddDays(q, WindowDays)
        case None => Err(DateOutOfRange)
        case Some(end) => Ok((Format(start), Format(end)))
  }

  /**
   * The window text reads back as the dates exactly 182 days before and
   * after the query date; it is missing only when the query date does not
   * parse or one end would leave the years 1..9999.
   */
  lemma WindowBounds(date: string)
    requires Parse(date).Ok?
    ensures var q := Parse(date).value;
      WindowText(date).Ok? <==> WindowDays <= Ordinal(q) <= MaxOrdinal - WindowDays
    ensures WindowText(date).Err? ==> WindowText(date).error == DateOutOfRange
    ensures WindowText(date).Ok? ==>
      var q := Parse(date).value;
      var (lo, hi) := WindowText(date).value;
      && Parse(lo).Ok? && Ordinal(Parse(lo).value) == Ordinal(q) - WindowDays
      && Parse(hi).Ok? && Ordinal(Parse(hi).value) == Ordinal(q) + WindowDays
  {
    var q := Parse(date).value;
    if WindowText(date).Ok? {
      var start := AddDays(q, -WindowDays).value;
      var end := AddDays(q, WindowDays).value;
      ParseFormat(start);
      ParseFormat(end);
    }
  }

  /** The window text is the printed form of the two dates 182 days either side of the query date. */
  lemma WindowTextOf(date: string, q: Date, lo: Date, hi: Date)
    requires Parse(date) == Ok(q) && ValidDate(lo) && ValidDate(hi)
    requires Ordinal(lo) == Ordinal(q) - WindowDays && Ordinal(hi) == Ordinal(q) + WindowDays
    ensures WindowText(date) == Ok((Format(lo), Format(hi)))
  {
    AddDaysTo(q, -WindowDays, lo);
    AddDaysTo(q, WindowDays, hi);
  }

  lemma ExampleDates()
    ensures Parse("2020-06-15") == Ok(Date(2020, 6, 15))
    ensures Format(Date(2019, 12, 16)) == "2019-12-16" && Format(Date(2020, 12, 14)) == "2020-12-14"
    ensures Ordinal(Date(2019, 12, 16)) == Ordinal(Date(2020, 6, 15)) - WindowDays
    ensures Ordinal(Date(2020, 12, 14)) == Ordinal(Date(2020, 6, 15)) + WindowDays
  {
    assert Format(Date(2020, 6, 15)) == "2020-06-15";
    ParseFormat(Date(2020, 6, 15));
    DaysBeforeYearStep(2019);
    DaysBeforeMonthTotal(2019);
    DaysBeforeMonthTotal(2020);
  }

  /** The window around 15 June 2020 runs from 16 December 2019 to 14 December 2020. */
  lemma WindowExample()
    ensures WindowText("2020-06-15") == Ok(("2019-12-16", "2020-12-14"))
  {
    ExampleDates();
    WindowTextOf("2020-06-15", Date(2020, 6, 15), Date(2019, 12, 16), Date(2020, 12, 14));
  }
}
