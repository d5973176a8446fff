/** Calendar dates as the program reads and writes them: parsing the
    registration answer with `datetime.strptime(text, "%Y-%m-%d")`
    (bot.py:174) and printing a stored date with `strftime('%Y-%m-%d')`
    (bot.py:92) and `strftime('%d-%m-%Y')` for the renewal form
    (automation.py:126). */
module Dates {
  import opened Common

  datatype Date = Date(year: int, month: int, day: int)

  predicate IsLeapYear(y: int) {
    y % 4 == 0 && (y % 100 != 0 || y % 400 == 0)
  }

  function DaysInMonth(y: int, m: int): int
    requires 1 <= m <= 12
  {
    if m == 2 then (if IsLeapYear(y) then 29 else 28)
    else if m == 4 || m == 6 || m == 9 || m == 11 then 30
    else 31
  }

  /** The dates Python's `datetime.date` can hold (years 1 to 9999). */
  predicate Valid(d: Date) {
    && 1 <= d.year <= 9999
    && 1 <= d.month <= 12
    && 1 <= d.day <= DaysInMonth(d.year, d.month)
  }

  /** A `datetime.date` value: always a date that exists. */
  type CalendarDate = d: Date | Valid(d) witness Date(1, 1, 1)

  predicate IsDigit(c: char) {
    '0' <= c <= '9'
  }

  predicate AllDigits(s: string) {
    forall i :: 0 <= i < |s| ==> IsDigit(s[i])
  }

  function DigitValue(c: char): nat
    requires IsDigit(c)
  {
    c as int - '0' as int
  }

  function DigitChar(n: nat): char
    requires n < 10
  {
    (n + '0' as int) as char
  }

  /** The value of a string of decimal digits. */
  function NumberValue(s: string): nat
    requires AllDigits(s)
  {
    if s == [] then 0 else NumberValue(s[..|s| - 1]) * 10 + DigitValue(s[|s| - 1])
  }

  function Pow10(n: nat): nat {
    if n == 0 then 1 else 10 * Pow10(n - 1)
  }

  /** The last `width` decimal digits of `n`, zero-padded. */
  function Pad(n: nat, width: nat): string {
    if width == 0 then [] else Pad(n / 10, width - 1) + [DigitChar(n % 10)]
  }

  /** A number below 10^width is written in exactly `width` digits that read
      back as the number. */
  lemma {:induction false} PadValue(n: nat, width: nat)
    requires n < Pow10(width)
    ensures |Pad(n, width)| == width && AllDigits(Pad(n, width))
    ensures NumberValue(Pad(n, width)) == n
  {
    if width > 0 {
      PadValue(n / 10, width - 1);
      var p := Pad(n, width);
      assert p[..|p| - 1] == Pad(n / 10, width - 1);
    }
  }

  /** The `%m` field of strptime: `1[0-2]|0[1-9]|[1-9]`. */
  predicate IsMonthToken(t: string) {
    || (|t| == 1 && '1' <= t[0] <= '9')
    || (|t| == 2 && t[0] == '1' && '0' <= t[1] <= '2')
    || (|t| == 2 && t[0] == '0' && '1' <= t[1] <= '9')
  }

  /** The `%d` field of strptime: `3[01]|[12]\d|0[1-9]|[1-9]| [1-9]`. */
  predicate IsDayToken(t: string) {
    || (|t| == 1 && '1' <= t[0] <= '9')
    || (|t| == 2 && t[0] == '3' && '0' <= t[1] <= '1')
    || (|t| == 2 && '1' <= t[0] <= '2' && IsDigit(t[1]))
    || (|t| == 2 && t[0] == '0' && '1' <= t[1] <= '9')
    || (|t| == 2 && t[0] == ' ' && '1' <= t[1] <= '9')
  }

  function DayTokenValue(t: string): nat
    requires IsDayToken(t)
  {
    if t[0] == ' ' then DigitValue(t[1]) else NumberValue(t)
  }

  /** `datetime.strptime(s, "%Y-%m-%d").date()`: four digits, a dash, a
      one- or two-digit month, a dash, a one- or two-digit day (which may be a
      space and a digit), nothing after it, and a date that exists; None where
      Python raises ValueError. */
  function ParseIso(s: string): Option<CalendarDate> {
    if |s| < 5 || s[4] != '-' || !AllDigits(s[..4]) then None
    else
      var rest := s[5..];
      var mlen := if |rest| >= 2 && rest[1] == '-' then 1 else 2;
      if |rest| < mlen + 1 || rest[mlen] != '-' then None
      else
        var m := rest[..mlen];
        var d := rest[mlen + 1..];
        if !IsMonthToken(m) || !IsDayToken(d) then None
        else
          var date := Date(NumberValue(s[..4]), NumberValue(m), DayTokenValue(d));
          if Valid(date) then var c: CalendarDate := date; Some(c) else None
  }

  /** `d.strftime('%Y-%m-%d')`. */
  function FormatIso(d: CalendarDate): string {
    Pad(d.year, 4) + "-" + Pad(d.month, 2) + "-" + Pad(d.day, 2)
  }

  /** `d.strftime('%d-%m-%Y')`, the form's DD-MM-YYYY field. */
  function FormatDmy(d: CalendarDate): string {
    Pad(d.day, 2) + "-" + Pad(d.month, 2) + "-" + Pad(d.year, 4)
  }

  lemma TwoDigits(n: nat)
    requires n < 100
    ensures Pad(n, 2) == [DigitChar(n / 10), DigitChar(n % 10)]
  {
    assert n / 10 < 10 && (n / 10) % 10 == n / 10;
    assert Pad(n / 10, 1) == [DigitChar(n / 10)];
  }

  /** A month printed with `%m` is a two-character `%m` token. */
  lemma MonthTokenOfPad(n: nat)
    requires 1 <= n <= 12
    ensures |Pad(n, 2)| == 2 && IsMonthToken(Pad(n, 2))
  {
    TwoDigits(n);
  }

  /** A day printed with `%d` is a two-character `%d` token that reads back
      as the day. */
  lemma DayTokenOfPad(n: nat)
    requires 1 <= n <= 31
    ensures |Pad(n, 2)| == 2 && IsDayToken(Pad(n, 2)) && DayTokenValue(Pad(n, 2)) == n
  {
    TwoDigits(n);
    PadValue(n, 2);
  }

  /** Text in the fixed-width YYYY-MM-DD layout parses to the date its
      three fields spell, when that date exists, and is refused otherwise. */
  lemma ParseIsoFixedWidth(y: string, m: string, d: string)
    requires |y| == 4 && AllDigits(y) && |m| == 2 && IsMonthToken(m) && |d| == 2 && IsDayToken(d)
    ensures var date := Date(NumberValue(y), NumberValue(m), DayTokenValue(d));
      var r := ParseIso(y + "-" + m + "-" + d);
      (r.Some? <==> Valid(date)) && (r.Some? ==> r.value == date)
  {
    var s := y + "-" + m + "-" + d;
    assert s[..4] == y && s[4] == '-';
    var rest := s[5..];
    assert rest == m + "-" + d;
    assert rest[1] == m[1] && rest[2] == '-';
    assert rest[..2] == m && rest[3..] == d;
  }

  /** Every valid date printed as YYYY-MM-DD parses back to itself. */
  lemma ParseFormatIso(d: CalendarDate)
    ensures ParseIso(FormatIso(d)) == Some(d)
  {
    PadValue(d.year, 4);
    PadValue(d.month, 2);
    MonthTokenOfPad(d.month);
    DayTokenOfPad(d.day);
    ParseIsoFixedWidth(Pad(d.year, 4), Pad(d.month, 2), Pad(d.day, 2));
  }

  /** The DD-MM-YYYY text is ten characters whose three dash-separated digit
      groups read back as the day, the month and the year. */
  lemma FormatDmyFields(d: CalendarDate)
    ensures var s := FormatDmy(d);
      && |s| == 10 && s[2] == '-' && s[5] == '-'
      && AllDigits(s[..2]) && AllDigits(s[3..5]) && AllDigits(s[6..])
      && NumberValue(s[..2]) == d.day
      && NumberValue(s[3..5]) == d.month
      && NumberValue(s[6..]) == d.year
  {
    var s := FormatDmy(d);
    PadValue(d.year, 4);
    PadValue(d.month, 2);
    PadValue(d.day, 2);
    assert s[..2] == Pad(d.day, 2);
    assert s[3..5] == Pad(d.month, 2);
    assert s[6..] == Pad(d.year, 4);
  }
}
