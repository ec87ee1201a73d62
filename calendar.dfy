/**
 * Proleptic Gregorian dates as Python's `datetime.date` has them (years 1..9999),
 * the day arithmetic the report needs (`date - timedelta(days=7)`), the week-of-month
 * rule, and the two `strptime` formats the code parses: `%d%b%Y` and `%Y-%m-%d`.
 */
module Calendar {
  import opened Wrappers
  import opened Text

  datatype Date = Date(year: int, month: int, day: int)

  predicate IsLeapYear(y: int) {
    y % 4 == 0 && (y % 100 != 0 || y % 400 == 0)
  }

  function DaysInMonth(y: int, m: int): (n: int)
    requires 1 <= m <= 12
    ensures 28 <= n <= 31
    ensures n == 29 <==> m == 2 && IsLeapYear(y)
  {
    if m == 2 then (if IsLeapYear(y) then 29 else 28)
    else if m == 4 || m == 6 || m == 9 || m == 11 then 30
    else 31
  }

  /** The dates `datetime.date` accepts. */
  predicate ValidDate(d: Date) {
    1 <= d.year <= 9999 && 1 <= d.month <= 12 && 1 <= d.day <= DaysInMonth(d.year, d.month)
  }

  function DaysInYear(y: int): int {
    if IsLeapYear(y) then 366 else 365
  }

  function DaysBeforeYear(y: int): nat
    requires y >= 1
  {
    if y == 1 then 0 else DaysBeforeYear(y - 1) + DaysInYear(y - 1)
  }

  /** Days of the year before the first of month `m`. */
  function DaysBeforeMonth(y: int, m: int): nat
    requires 1 <= m <= 12
  {
    [0, 31, 59, 90, 120, 151, 181, 212, 243, 273, 304, 334][m - 1] + (if m > 2 && IsLeapYear(y) then 1 else 0)
  }

  /** The days before a month are those before the previous month plus its length. */
  lemma MonthStep(y: int, m: int)
    requires 2 <= m <= 12
    ensures DaysBeforeMonth(y, m) == DaysBeforeMonth(y, m - 1) + DaysInMonth(y, m - 1)
  {
  }

  /** `date.toordinal()`: 1 for 0001-01-01, one more for every following day. */
  function Ordinal(d: Date): int
    requires ValidDate(d)
  {
    DaysBeforeYear(d.year) + DaysBeforeMonth(d.year, d.month) + d.day
  }

  /** The months before December and December itself make up the whole year. */
  lemma YearIsTwelveMonths(y: int)
    ensures DaysBeforeMonth(y, 12) + DaysInMonth(y, 12) == DaysInYear(y)
  {
  }

  /** Comparison of dates in calendar order, as `date < date` compares them. */
  predicate Before(a: Date, b: Date) {
    a.year < b.year || (a.year == b.year && (a.month < b.month || (a.month == b.month && a.day < b.day)))
  }

  /**
   * `date - timedelta(days=7)`. Python raises `OverflowError` when the result would
   * fall before 0001-01-01.
   */
  function MinusWeek(d: Date): (r: Result<Date>)
    requires ValidDate(d)
  {
    if d.day > 7 then Ok(Date(d.year, d.month, d.day - 7))
    else if d.month > 1 then Ok(Date(d.year, d.month - 1, DaysInMonth(d.year, d.month - 1) + d.day - 7))
    else if d.year > 1 then Ok(Date(d.year - 1, 12, 31 + d.day - 7))
    else Err("date value out of range")
  }

  /**
   * Subtracting a week gives a valid date exactly seven days earlier, across month
   * and year boundaries, and fails exactly in the first week of year 1.
   */
  lemma MinusWeekIsSevenDaysEarlier(d: Date)
    requires ValidDate(d)
    ensures MinusWeek(d).Ok? <==> Ordinal(d) > 7
    ensures MinusWeek(d).Ok? ==> ValidDate(MinusWeek(d).value) &&
                                 Ordinal(MinusWeek(d).value) == Ordinal(d) - 7
  {
    if d.day <= 7 && d.month > 1 {
      MonthStep(d.year, d.month);
    } else if d.day <= 7 && d.year > 1 {
      YearIsTwelveMonths(d.year - 1);
      assert DaysBeforeYear(d.year) == DaysBeforeYear(d.year - 1) + DaysInYear(d.year - 1);
    } else if d.day <= 7 {
      assert Ordinal(d) == d.day;
    } else {
      assert Ordinal(d) > 7;
    }
  }

  /** Subtracting a week moves strictly back in calendar order. */
  lemma MinusWeekIsBefore(d: Date)
    requires ValidDate(d) && MinusWeek(d).Ok?
    ensures Before(MinusWeek(d).value, d)
  {
  }

  // ---------------------------------------------------------------- weeks

  /** `(day - 1) // 7 + 1`: the 7-day bucket of the month the day falls in. */
  function WeekNumber(d: Date): int {
    (d.day - 1) / 7 + 1
  }

  /** `week_number * 5`: the working days required up to this week. */
  function RequiredDays(d: Date): int {
    WeekNumber(d) * 5
  }

  /** Every valid date lies in week 1 to 5 and requires a multiple of 5 days, at most 25. */
  lemma WeekBounds(d: Date)
    requires ValidDate(d)
    ensures 1 <= WeekNumber(d) <= 5
    ensures RequiredDays(d) % 5 == 0 && 5 <= RequiredDays(d) <= 25
    ensures WeekNumber(d) == 5 <==> d.day >= 29
  {
  }

  /** Later days of the same month never require fewer days. */
  lemma RequiredDaysMonotone(a: Date, b: Date)
    requires ValidDate(a) && ValidDate(b)
    requires a.year == b.year && a.month == b.month && a.day <= b.day
    ensures WeekNumber(a) <= WeekNumber(b) && RequiredDays(a) <= RequiredDays(b)
  {
  }

  /** From week 2 on, the date a week earlier is in the same month, one week number lower. */
  lemma PreviousWeekSameMonth(d: Date)
    requires ValidDate(d) && WeekNumber(d) > 1
    ensures MinusWeek(d) == Ok(Date(d.year, d.month, d.day - 7))
    ensures WeekNumber(MinusWeek(d).value) == WeekNumber(d) - 1
  {
  }

  // ---------------------------------------------------------------- month names

  const MonthAbbrevs: seq<string> := ["Jan", "Feb", "Mar", "Apr", "May", "Jun",
                                      "Jul", "Aug", "Sep", "Oct", "Nov", "Dec"]

  const MonthNames: seq<string> := ["January", "February", "March", "April", "May", "June", "July",
                                    "August", "September", "October", "November", "December"]

  /** `strftime('%B')`: the full English month name. */
  function MonthName(m: int): string
    requires 1 <= m <= 12
  {
    MonthNames[m - 1]
  }

  /** The abbreviations as `str.lower` leaves them. */
  const LowerAbbrevs: seq<string> := ["jan", "feb", "mar", "apr", "may", "jun",
                                      "jul", "aug", "sep", "oct", "nov", "dec"]

  /** `%b` in `strptime`: the month whose abbreviation equals `s` ignoring case. */
  function MonthFromAbbrev(s: string): (r: Option<int>)
    ensures r.Some? ==> 1 <= r.value <= 12 && Lower(s) == LowerAbbrevs[r.value - 1]
    ensures r.None? ==> forall i :: 0 <= i < 12 ==> Lower(s) != LowerAbbrevs[i]
  {
    FindMonth(Lower(s), 0)
  }

  function FindMonth(t: string, i: int): (r: Option<int>)
    requires 0 <= i <= 12
    ensures r.Some? ==> i < r.value <= 12 && t == LowerAbbrevs[r.value - 1]
    ensures r.None? ==> forall j :: i <= j < 12 ==> t != LowerAbbrevs[j]
    decreases 12 - i
  {
    if i == 12 then None
    else if t == LowerAbbrevs[i] then Some(i + 1)
    else FindMonth(t, i + 1)
  }

  /** Each abbreviation, in any mix of cases, names its own month. */
  lemma MonthFromAbbrevOwn(m: int, s: string)
    requires 1 <= m <= 12 && Lower(s) == LowerAbbrevs[m - 1]
    ensures MonthFromAbbrev(s) == Some(m)
  {
    var r := MonthFromAbbrev(s);
    assert r.Some?;
    DistinctAbbrevs(r.value - 1, m - 1);
  }

  lemma DistinctAbbrevs(a: int, b: int)
    requires 0 <= a < 12 && 0 <= b < 12 && LowerAbbrevs[a] == LowerAbbrevs[b]
    ensures a == b
  {
  }

  /** The abbreviations `strftime('%b')` writes read back as themselves. */
  lemma LowerOfAbbrev(i: int)
    requires 0 <= i < 12
    ensures Lower(MonthAbbrevs[i]) == LowerAbbrevs[i]
  {
    var x := MonthAbbrevs[i];
    assert |x| == 3;
    var l := Lower(x);
    assert l[0] == LowerChar(x[0]) && l[1] == LowerChar(x[1]) && l[2] == LowerChar(x[2]);
    assert l == [l[0], l[1], l[2]];
  }

  // ---------------------------------------------------------------- digits

  function DigitValue(c: char): int { c as int - '0' as int }

  function DigitChar(n: int): char
    requires 0 <= n <= 9
  {
    ('0' as int + n) as char
  }

  /** The decimal value of a string of digits, as `int()` reads it. */
  function DecimalValue(s: string): (n: nat)
    requires AllDigits(s)
  {
    if s == [] then 0 else DecimalValue(s[..|s| - 1]) * 10 + DigitValue(s[|s| - 1])
  }

  /** Two digits, zero-padded, as `%d` and `%m` format a day or month. */
  function Pad2(n: int): (s: string)
    requires 0 <= n <= 99
    ensures |s| == 2 && AllDigits(s)
  {
    [DigitChar(n / 10), DigitChar(n % 10)]
  }

  /** Four digits, zero-padded, as `%Y` formats a year. */
  function Pad4(n: int): (s: string)
    requires 0 <= n <= 9999
    ensures |s| == 4 && AllDigits(s)
  {
    Pad2(n / 100) + Pad2(n % 100)
  }

  lemma DigitRoundTrip(n: int)
    requires 0 <= n <= 9
    ensures IsDigit(DigitChar(n)) && DigitValue(DigitChar(n)) == n
  {
  }

  lemma Pad2Value(n: int)
    requires 0 <= n <= 99
    ensures DecimalValue(Pad2(n)) == n
  {
    var s := Pad2(n);
    assert s[..1] == [DigitChar(n / 10)];
    assert s[..1][..0] == [];
    DigitRoundTrip(n / 10);
    DigitRoundTrip(n % 10);
    assert DecimalValue(s[..1]) == n / 10;
    assert DecimalValue(s) == (n / 10) * 10 + n % 10;
  }

  lemma Pad4Value(n: int)
    requires 0 <= n <= 9999
    ensures DecimalValue(Pad4(n)) == n
  {
    Pad2Value(n / 100);
    Pad2Value(n % 100);
    DecimalValueAppend(Pad2(n / 100), Pad2(n % 100));
  }

  /** Reading a concatenation with two trailing digits shifts the first part left by two places. */
  lemma DecimalValueAppend(a: string, b: string)
    requires AllDigits(a) && AllDigits(b) && |b| == 2
    ensures AllDigits(a + b)
    ensures DecimalValue(a + b) == DecimalValue(a) * 100 + DecimalValue(b)
  {
    var s := a + b;
    assert s[..|s| - 1] == a + b[..1];
    assert (a + b[..1])[..|a|] == a;
    assert b[..1][..0] == [];
    var x, y := DigitValue(b[0]), DigitValue(b[1]);
    assert DecimalValue(b[..1]) == x;
    assert DecimalValue(b) == x * 10 + y;
    assert DecimalValue(a + b[..1]) == DecimalValue(a) * 10 + x;
    assert DecimalValue(s) == (DecimalValue(a) * 10 + x) * 10 + y;
  }

  /**
   * One field that `%d` or `%m` in `strptime` reads: one digit other than '0', or two
   * digits whose value is between 1 and `max` (the alternatives `3[01]|[12]\d|0[1-9]`
   * for days and `1[0-2]|0[1-9]` for months).
   */
  function SmallField(s: string, max: int): Option<int> {
    if |s| == 1 && IsDigit(s[0]) && s[0] != '0' then Some(DigitValue(s[0]))
    else if |s| == 2 && AllDigits(s) && 1 <= DecimalValue(s) <= max then Some(DecimalValue(s))
    else None
  }

  /** Building a `datetime.date`, which raises `ValueError` for an impossible date. */
  function MakeDate(y: int, m: int, d: int): (r: Result<Date>)
    ensures r.Ok? <==> ValidDate(Date(y, m, d))
    ensures r.Ok? ==> r.value == Date(y, m, d)
  {
    if ValidDate(Date(y, m, d)) then Ok(Date(y, m, d)) else Err("day is out of range for month")
  }

  /**
   * `datetime.strptime(t, "%d%b%Y")`: a one- or two-digit day, a month abbreviation in
   * any case, exactly four year digits, and nothing else; then a valid calendar date.
   */
  function ParseDayMonYear(t: string): (r: Result<Date>)
    ensures r.Ok? ==> ValidDate(r.value)
  {
    if |t| != 8 && |t| != 9 then Err("time data does not match format '%d%b%Y'")
    else
      var k := |t| - 7;
      var day := SmallField(t[..k], 31);
      var month := MonthFromAbbrev(t[k..k + 3]);
      var yearText := t[k + 3..];
      if day.None? || month.None? || !AllDigits(yearText) then Err("time data does not match format '%d%b%Y'")
      else MakeDate(DecimalValue(yearText), month.value, day.value)
  }

  /** `strftime('%d%b%Y')`, e.g. "10Apr2025". */
  function FormatDayMonYear(d: Date): string
    requires ValidDate(d)
  {
    Pad2(d.day) + MonthAbbrevs[d.month - 1] + Pad4(d.year)
  }

  /** Formatting a date as "10Apr2025" and parsing it back gives the same date. */
  lemma ParseFormatDayMonYear(d: Date)
    requires ValidDate(d)
    ensures ParseDayMonYear(FormatDayMonYear(d)) == Ok(d)
  {
    var t := FormatDayMonYear(d);
    assert |t| == 9;
    assert t[..2] == Pad2(d.day);
    assert t[2..5] == MonthAbbrevs[d.month - 1];
    assert t[5..] == Pad4(d.year);
    Pad2Value(d.day);
    Pad4Value(d.year);
    LowerOfAbbrev(d.month - 1);
    MonthFromAbbrevOwn(d.month, t[2..5]);
  }

  /**
   * `datetime.strptime(s, '%Y-%m-%d')`: four year digits, '-', a month field, '-', a
   * day field (which may also be a space and a digit), and nothing else.
   */
  function ParseIsoDate(s: string): (r: Result<Date>)
    ensures r.Ok? ==> ValidDate(r.value)
  {
    if |s| < 8 || !AllDigits(s[..4]) || s[4] != '-' then Err("time data does not match format '%Y-%m-%d'")
    else
      var rest := s[5..];
      var dash := if |rest| > 1 && rest[1] == '-' then 1 else 2;
      if |rest| <= dash || rest[dash] != '-' then Err("time data does not match format '%Y-%m-%d'")
      else
        var month := SmallField(rest[..dash], 12);
        var dayText := rest[dash + 1..];
        var day := if |dayText| == 2 && dayText[0] == ' ' && IsDigit(dayText[1]) && dayText[1] != '0'
                   then Some(DigitValue(dayText[1])) else SmallField(dayText, 31);
        if month.None? || day.None? then Err("time data does not match format '%Y-%m-%d'")
        else MakeDate(DecimalValue(s[..4]), month.value, day.value)
  }

  /** `strftime('%Y-%m-%d')`, e.g. "2025-04-10". */
  function FormatIso(d: Date): string
    requires ValidDate(d)
  {
    Pad4(d.year) + "-" + Pad2(d.month) + "-" + Pad2(d.day)
  }

  /** Formatting a date as "2025-04-10" and parsing it with `%Y-%m-%d` gives it back. */
  lemma ParseFormatIso(d: Date)
    requires ValidDate(d)
    ensures ParseIsoDate(FormatIso(d)) == Ok(d)
  {
    var s := FormatIso(d);
    assert |s| == 10;
    assert s[..4] == Pad4(d.year);
    var rest := s[5..];
    assert rest == Pad2(d.month) + "-" + Pad2(d.day);
    assert rest[..2] == Pad2(d.month);
    assert rest[3..] == Pad2(d.day);
    Pad2Value(d.month);
    Pad2Value(d.day);
    Pad4Value(d.year);
  }
}
