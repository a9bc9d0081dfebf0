/** The calendar part of Python's `datetime` that `calculate_age`
    (longview_app/app.py:19-28) relies on: `datetime.strptime(s, "%Y-%m-%d")`
    and, for stating properties, `strftime("%Y-%m-%d")`. */
module PyDates {
  import opened Base

  datatype Date = Date(year: int, month: int, day: int)

  predicate IsLeapYear(y: int) {
    (y % 4 == 0 && y % 100 != 0) || y % 400 == 0
  }

  function DaysInMonth(y: int, m: int): (n: int)
    requires 1 <= m <= 12
    ensures 28 <= n <= 31
  {
    if m == 2 then (if IsLeapYear(y) then 29 else 28)
    else if m == 4 || m == 6 || m == 9 || m == 11 then 30
    else 31
  }

  /** The dates `datetime` accepts: years 1 to 9999 and real calendar days. */
  predicate ValidDate(d: Date) {
    1 <= d.year <= 9999 && 1 <= d.month <= 12 && 1 <= d.day <= DaysInMonth(d.year, d.month)
  }

  predicate IsDigit(c: char) {
    '0' <= c <= '9'
  }

  function DigitValue(c: char): (n: int)
    requires IsDigit(c)
    ensures 0 <= n <= 9
  {
    c as int - '0' as int
  }

  function DigitChar(n: int): (c: char)
    requires 0 <= n <= 9
    ensures IsDigit(c) && DigitValue(c) == n
  {
    ('0' as int + n) as char
  }

  /** The position of the first '-' in `s`. */
  function FindDash(s: string): (r: Option<nat>)
    ensures r.Some? ==> r.value < |s| && s[r.value] == '-' && forall k :: 0 <= k < r.value ==> s[k] != '-'
    ensures r.None? ==> forall k :: 0 <= k < |s| ==> s[k] != '-'
  {
    if s == [] then None
    else if s[0] == '-' then Some(0)
    else match FindDash(s[1..])
      case None => None
      case Some(k) => Some(k + 1)
  }

  /** The `%m` directive, `1[0-2]|0[1-9]|[1-9]`, matched against the whole
      token between the two dashes. */
  function ParseMonth(t: string): (r: Option<int>)
    ensures r.Some? ==> 1 <= r.value <= 12
  {
    if |t| == 2 && t[0] == '1' && '0' <= t[1] <= '2' then Some(10 + DigitValue(t[1]))
    else if |t| == 2 && t[0] == '0' && '1' <= t[1] <= '9' then Some(DigitValue(t[1]))
    else if |t| == 1 && '1' <= t[0] <= '9' then Some(DigitValue(t[0]))
    else None
  }

  /** The `%d` directive, `3[01]|[12]\d|0[1-9]|[1-9]| [1-9]`, matched against
      everything after the second dash (anything left over is "unconverted
      data" and fails). */
  function ParseDay(t: string): (r: Option<int>)
    ensures r.Some? ==> 1 <= r.value <= 31
  {
    if |t| == 2 && t[0] == '3' && '0' <= t[1] <= '1' then Some(30 + DigitValue(t[1]))
    else if |t| == 2 && (t[0] == '1' || t[0] == '2') && IsDigit(t[1]) then Some(10 * DigitValue(t[0]) + DigitValue(t[1]))
    else if |t| == 2 && t[0] == '0' && '1' <= t[1] <= '9' then Some(DigitValue(t[1]))
    else if |t| == 1 && '1' <= t[0] <= '9' then Some(DigitValue(t[0]))
    else if |t| == 2 && t[0] == ' ' && '1' <= t[1] <= '9' then Some(DigitValue(t[1]))
    else None
  }

  /** The `%Y` field as the model reads it: four ASCII digits. */
  function YearOf(s: string): (y: int)
    requires |s| >= 4 && IsDigit(s[0]) && IsDigit(s[1]) && IsDigit(s[2]) && IsDigit(s[3])
    ensures 0 <= y <= 9999
  {
    1000 * DigitValue(s[0]) + 100 * DigitValue(s[1]) + 10 * DigitValue(s[2]) + DigitValue(s[3])
  }

  /** The "%m-%d" part after the year's dash, checked against the calendar. */
  function MonthDayOf(year: int, rest: string): (r: Option<Date>)
    ensures r.Some? ==> ValidDate(r.value) && r.value.year == year
  {
    match FindDash(rest)
    case None => None
    case Some(k) =>
      var month := ParseMonth(rest[..k]);
      var day := ParseDay(rest[k + 1..]);
      if month.None? || day.None? then None
      else
        var d := Date(year, month.value, day.value);
        if ValidDate(d) then Some(d) else None
  }

  /** `datetime.strptime(s, "%Y-%m-%d")`: four digits, a dash, a month, a
      dash, a day, nothing more, and a date that exists; None where Python
      raises ValueError. */
  function ParseYmd(s: string): (r: Option<Date>)
    ensures r.Some? ==> ValidDate(r.value)
  {
    if |s| < 5 || !(IsDigit(s[0]) && IsDigit(s[1]) && IsDigit(s[2]) && IsDigit(s[3])) || s[4] != '-' then None
    else MonthDayOf(YearOf(s), s[5..])
  }

  /** Two zero-padded digits. */
  function Pad2(n: int): (s: string)
    requires 0 <= n <= 99
    ensures |s| == 2 && IsDigit(s[0]) && IsDigit(s[1])
    ensures 10 * DigitValue(s[0]) + DigitValue(s[1]) == n
  {
    [DigitChar(n / 10), DigitChar(n % 10)]
  }

  /** `d.strftime("%Y-%m-%d")` for four-digit years. */
  function FormatYmd(d: Date): (s: string)
    requires ValidDate(d) && d.year >= 1000
    ensures |s| == 10 && s[4] == '-' && s[7] == '-'
  {
    Pad2(d.year / 100) + Pad2(d.year % 100) + "-" + Pad2(d.month) + "-" + Pad2(d.day)
  }

  /** strptime reads back what strftime writes. */
  lemma ParseFormatRoundTrip(d: Date)
    requires ValidDate(d) && d.year >= 1000
    ensures ParseYmd(FormatYmd(d)) == Some(d)
  {
    var s := FormatYmd(d);
    var hi := Pad2(d.year / 100);
    var lo := Pad2(d.year % 100);
    var mm := Pad2(d.month);
    var dd := Pad2(d.day);
    assert s == hi + lo + "-" + mm + "-" + dd;
    assert s[0] == hi[0] && s[1] == hi[1] && s[2] == lo[0] && s[3] == lo[1];
    var rest := s[5..];
    assert rest == mm + "-" + dd;
    assert rest[0] != '-' && rest[1] != '-' && rest[2] == '-';
    assert FindDash(rest) == Some(2);
    assert rest[..2] == mm;
    assert rest[3..] == dd;
    assert 1000 * DigitValue(s[0]) + 100 * DigitValue(s[1]) + 10 * DigitValue(s[2]) + DigitValue(s[3]) == d.year;
    assert ParseMonth(mm) == Some(d.month);
    assert ParseDay(dd) == Some(d.day);
  }

  /** The date of birth the app's tests feed in. */
  lemma TestParseYmdAccepts()
    ensures ParseYmd("1990-01-01") == Some(Date(1990, 1, 1))
  {
    var rest := "1990-01-01"[5..];
    assert rest == "01-01";
    assert rest[0] != '-' && rest[1] != '-' && rest[2] == '-';
    assert FindDash(rest) == Some(2);
    assert rest[..2] == "01" && rest[3..] == "01";
  }

  /** A one-digit month is accepted, and 29 February of a leap year exists. */
  lemma TestParseYmdAcceptsShortMonth()
    ensures ParseYmd("2024-2-29") == Some(Date(2024, 2, 29))
  {
    var rest := "2024-2-29"[5..];
    assert rest == "2-29";
    assert rest[0] != '-' && rest[1] == '-';
    assert FindDash(rest) == Some(1);
    assert rest[..1] == "2" && rest[2..] == "29";
  }

  /** Month 13 does not parse. */
  lemma TestParseYmdRejectsBadMonth()
    ensures ParseYmd("2000-13-01").None?
  {
    var rest := "2000-13-01"[5..];
    assert rest == "13-01";
    assert rest[0] != '-' && rest[1] != '-' && rest[2] == '-';
    assert FindDash(rest) == Some(2);
    assert rest[..2] == "13";
  }

  /** 29 February of a common year does not parse. */
  lemma TestParseYmdRejectsBadDay()
    ensures ParseYmd("2023-02-29").None?
  {
    var rest := "2023-02-29"[5..];
    assert rest == "02-29";
    assert rest[0] != '-' && rest[1] != '-' && rest[2] == '-';
    assert FindDash(rest) == Some(2);
    assert rest[..2] == "02" && rest[3..] == "29";
  }

  /** Text that is not a date does not parse. */
  lemma TestParseYmdRejectsText()
    ensures ParseYmd("invalid-date").None?
  {
    assert !IsDigit("invalid-date"[0]);
  }
}
