/** Provider date keys: `datetime.strptime(s, '%Y-%m-%d')` followed by
    `strftime('%Y-%m-%d')`. Parsing accepts the same token shapes Python's
    `_strptime` regular expression does (so "2024-1-5" is read), then rejects
    dates that do not exist; formatting always writes the canonical
    zero-padded `YYYY-MM-DD`. */
module Dates {
  import opened Wrappers
  import opened Numbers

  datatype Date = Date(year: int, month: int, day: int)

  predicate IsLeapYear(y: int) {
    y % 4 == 0 && (y % 100 != 0 || y % 400 == 0)
  }

  function DaysInMonth(y: int, m: int): int
    requires 1 <= m <= 12
  {
    if m == 2 then (if IsLeapYear(y) then 29 else 28)
    else if m == 4 || m == 6 || m == 9 || m == 11 then 30
    else 31
  }

  /** A date `datetime` accepts: years 1 to 9999, a real month, a day within it. */
  predicate ValidDate(d: Date) {
    1 <= d.year <= 9999 && 1 <= d.month <= 12 && 1 <= d.day <= DaysInMonth(d.year, d.month)
  }

  /** Chronological order of dates. */
  predicate Before(a: Date, b: Date) {
    a.year < b.year || (a.year == b.year && (a.month < b.month || (a.month == b.month && a.day < b.day)))
  }

  /** The `%m` token `1[0-2]|0[1-9]|[1-9]`. */
  function MonthToken(t: string): (r: Option<int>)
    ensures r.Some? ==> 1 <= r.value <= 12
    ensures r.Some? <==> (|t| == 1 && '1' <= t[0] <= '9') || (|t| == 2 && ((t[0] == '0' && '1' <= t[1] <= '9') || (t[0] == '1' && '0' <= t[1] <= '2')))
  {
    if |t| == 1 && '1' <= t[0] <= '9' then Some(DigitValue(t[0]))
    else if |t| == 2 && t[0] == '0' && '1' <= t[1] <= '9' then Some(DigitValue(t[1]))
    else if |t| == 2 && t[0] == '1' && '0' <= t[1] <= '2' then Some(10 + DigitValue(t[1]))
    else None
  }

  /** The `%d` token `3[01]|[12]\d|0[1-9]|[1-9]| [1-9]` (a blank-padded day is accepted). */
  function DayToken(t: string): (r: Option<int>)
    ensures r.Some? ==> 1 <= r.value <= 31
    ensures r.Some? <==> (|t| == 1 && '1' <= t[0] <= '9') || (|t| == 2 && (((t[0] == '0' || t[0] == ' ') && '1' <= t[1] <= '9') || ((t[0] == '1' || t[0] == '2') && IsDigit(t[1])) || (t[0] == '3' && (t[1] == '0' || t[1] == '1'))))
  {
    if |t| == 1 && '1' <= t[0] <= '9' then Some(DigitValue(t[0]))
    else if |t| == 2 && (t[0] == '0' || t[0] == ' ') && '1' <= t[1] <= '9' then Some(DigitValue(t[1]))
    else if |t| == 2 && (t[0] == '1' || t[0] == '2') && IsDigit(t[1]) then Some(10 * DigitValue(t[0]) + DigitValue(t[1]))
    else if |t| == 2 && t[0] == '3' && (t[1] == '0' || t[1] == '1') then Some(30 + DigitValue(t[1]))
    else None
  }

  /** `datetime.strptime(s, '%Y-%m-%d')`: four year digits, '-', a month token, '-',
      a day token, nothing after it, and a date that exists. */
  function ParseDate(s: string): (r: Option<Date>)
    ensures r.Some? ==> ValidDate(r.value)
    ensures r.Some? ==> |s| >= 8 && AllDigits(s[..4]) && s[4] == '-'
  {
    if |s| < 5 || !AllDigits(s[..4]) || s[4] != '-' || '-' !in s[5..] then None
    else
      var rest := s[5..];
      var k := IndexOf(rest, '-');
      match (MonthToken(rest[..k]), DayToken(rest[k + 1..]))
      case (Some(m), Some(d)) =>
        var date := Date(DigitsValue(s[..4]), m, d);
        if ValidDate(date) then Some(date) else None
      case _ => None
  }

  /** `strftime('%Y-%m-%d')`: zero-padded fields. */
  function FormatDate(d: Date): (s: string)
    requires ValidDate(d)
    ensures |s| == 10 && s[4] == '-' && s[7] == '-'
    ensures AllDigits(s[..4]) && AllDigits(s[5..7]) && AllDigits(s[8..])
  {
    PaddedValue(d.year, 4);
    PaddedValue(d.month, 2);
    PaddedValue(d.day, 2);
    var year, month, day := PadZeros(NatToString(d.year), 4), PadZeros(NatToString(d.month), 2), PadZeros(NatToString(d.day), 2);
    year + "-" + month + "-" + day
  }

  /** A canonical date string: exactly the shape `FormatDate` writes. */
  predicate Canonical(s: string) {
    match ParseDate(s)
    case Some(d) => FormatDate(d) == s
    case None => false
  }

  // ---------------------------------------------------------------------------

  lemma TwoDigits(t: string)
    requires |t| == 2 && AllDigits(t)
    ensures DigitsValue(t) == 10 * DigitValue(t[0]) + DigitValue(t[1])
  {
    var head := t[..1];
    assert head[..0] == [] && head[0] == t[0];
    assert DigitsValue(head) == DigitValue(t[0]);
    assert t[..|t| - 1] == head;
  }

  lemma MonthTokenOfPadded(m: int)
    requires 1 <= m <= 12
    ensures MonthToken(PadZeros(NatToString(m), 2)) == Some(m)
  {
    var t := PadZeros(NatToString(m), 2);
    PaddedValue(m, 2);
    TwoDigits(t);
  }

  lemma DayTokenOfPadded(d: int)
    requires 1 <= d <= 31
    ensures DayToken(PadZeros(NatToString(d), 2)) == Some(d)
  {
    var t := PadZeros(NatToString(d), 2);
    PaddedValue(d, 2);
    TwoDigits(t);
  }

  /** Parsing what `strftime` wrote gives back the same date. */
  lemma ParseFormatDate(d: Date)
    requires ValidDate(d)
    ensures ParseDate(FormatDate(d)) == Some(d)
  {
    var y := PadZeros(NatToString(d.year), 4);
    var m := PadZeros(NatToString(d.month), 2);
    var dd := PadZeros(NatToString(d.day), 2);
    PaddedValue(d.year, 4);
    MonthTokenOfPadded(d.month);
    DayTokenOfPadded(d.day);
    var s := FormatDate(d);
    assert s == y + "-" + m + "-" + dd;
    assert s[..4] == y;
    var rest := s[5..];
    assert rest == m + "-" + dd;
    assert rest[2] == '-';
    assert IndexOf(rest, '-') == 2 by {
      assert '-' !in rest[..2];
    }
    assert rest[..2] == m && rest[3..] == dd;
  }

  /** Every date the service emits is canonical, whatever shape the provider's key had. */
  lemma FormatDateCanonical(d: Date)
    requires ValidDate(d)
    ensures Canonical(FormatDate(d))
  {
    ParseFormatDate(d);
  }

  /** A key with single-digit month and day is accepted. */
  lemma LenientKeyAccepted()
    ensures ParseDate("2024-1-5") == Some(Date(2024, 1, 5))
  {
    var s := "2024-1-5";
    assert s[..4] == "2024";
    TwoDigits("20");
    TwoDigits("24");
    assert DigitsValue("2024") == 2024 by {
      assert "2024"[..3] == "202";
      assert "202"[..2] == "20";
    }
    assert s[5..] == "1-5";
    assert IndexOf("1-5", '-') == 1;
    assert "1-5"[..1] == "1" && "1-5"[2..] == "5";
  }

  /** The same date is written back with zero-padded month and day. */
  lemma LenientKeyNormalised()
    ensures ParseDate("2024-1-5") == Some(Date(2024, 1, 5))
    ensures FormatDate(Date(2024, 1, 5)) == "2024-01-05"
  {
    LenientKeyAccepted();
    assert NatToString(2024) == "2024";
    assert PadZeros("1", 2) == "01" && PadZeros("5", 2) == "05";
  }

  /** A day that does not exist in its month is rejected, although its digits match the pattern. */
  lemma NonexistentDateRejected()
    ensures ParseDate("2023-02-29") == None
  {
    var s := "2023-02-29";
    assert s[5..] == "02-29";
    assert IndexOf("02-29", '-') == 2;
    assert "02-29"[..2] == "02" && "02-29"[3..] == "29";
    assert s[..4] == "2023";
    assert DigitsValue("2023") == 2023 by {
      assert "2023"[..3] == "202";
      assert "202"[..2] == "20";
      TwoDigits("20");
    }
  }
}
