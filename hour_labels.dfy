/** `format_hour_label`: an hour of the day as a 12-hour clock label ("12 AM",
    "9 AM", "12 PM", "11 PM"), "Unknown" for a missing hour. The hour goes through
    `int()`, `str()`, `strptime(…, "%H")` and `strftime("%-I %p")` in the C locale. */
module HourLabels {
  import opened Cells

  /** Python's `int()` on a float: truncation toward zero. */
  function Truncate(x: real): (r: int)
    ensures 0.0 <= x ==> r as real <= x < r as real + 1.0
    ensures x < 0.0 ==> r as real - 1.0 < x <= r as real
  {
    if x >= 0.0 then x.Floor else -((-x).Floor)
  }

  // ---------------------------------------------------------------------------
  // Decimal numerals without leading zeros (`str` of a non-negative int, `%-I`)

  function DigitChar(d: nat): char
    requires d < 10
  {
    ('0' as int + d) as char
  }

  predicate IsDigit(c: char)
  {
    '0' <= c <= '9'
  }

  predicate AllDigits(s: string)
  {
    forall i :: 0 <= i < |s| ==> IsDigit(s[i])
  }

  function DigitValue(c: char): nat
    requires IsDigit(c)
  {
    c as int - '0' as int
  }

  function Decimal(n: nat): string
  {
    if n < 10 then [DigitChar(n)] else Decimal(n / 10) + [DigitChar(n % 10)]
  }

  function DecimalValue(s: string): nat
    requires AllDigits(s)
  {
    if s == [] then 0 else DecimalValue(s[..|s| - 1]) * 10 + DigitValue(s[|s| - 1])
  }

  /** The numeral of `n` is a non-empty digit string with no leading zero that reads
      back as `n`. */
  lemma {:induction false} DecimalRoundTrip(n: nat)
    ensures |Decimal(n)| >= 1 && AllDigits(Decimal(n))
    ensures n > 0 ==> Decimal(n)[0] != '0'
    ensures DecimalValue(Decimal(n)) == n
  {
    if n >= 10 {
      DecimalRoundTrip(n / 10);
      var s := Decimal(n);
      assert s == Decimal(n / 10) + [DigitChar(n % 10)];
      assert s[..|s| - 1] == Decimal(n / 10);
      assert s[0] == Decimal(n / 10)[0];
    }
  }

  // ---------------------------------------------------------------------------
  // The 12-hour clock

  /** `%-I`: the hour on a 12-hour dial. */
  function DialHour(h: int): int
    requires 0 <= h < 24
  {
    if h % 12 == 0 then 12 else h % 12
  }

  /** `%p` in the C locale. */
  function Period(h: int): string
  {
    if h < 12 then "AM" else "PM"
  }

  /** `strftime("%-I %p")` of the time whose hour is `h`. */
  function ClockLabel(h: int): string
    requires 0 <= h < 24
  {
    Decimal(DialHour(h)) + " " + Period(h)
  }

  /** `format_hour_label(hour)`; `None` stands for NaN/None. An hour whose integer
      part is outside 0..23 makes `strptime` raise ValueError. */
  function FormatHourLabel(hour: Option<real>): (r: Result<string>)
    ensures hour.None? ==> r == Ok("Unknown")
    ensures hour.Some? ==> (r.Ok? <==> 0 <= Truncate(hour.value) <= 23)
    ensures hour.Some? && r.Err? ==> r.failure == HourOutOfRange(Truncate(hour.value))
    ensures hour.Some? && Truncate(hour.value) == 0 ==> r == Ok("12 AM")
    ensures hour.Some? && Truncate(hour.value) == 12 ==> r == Ok("12 PM")
    ensures hour.Some? && 1 <= Truncate(hour.value) <= 11 ==> r == Ok(Decimal(Truncate(hour.value)) + " AM")
    ensures hour.Some? && 13 <= Truncate(hour.value) <= 23 ==> r == Ok(Decimal(Truncate(hour.value) - 12) + " PM")
  {
    match hour
    case None => Ok("Unknown")
    case Some(x) =>
      var h := Truncate(x);
      if 0 <= h <= 23 then ClockLabelCases(h); Ok(ClockLabel(h)) else Err(HourOutOfRange(h))
  }

  lemma ClockLabelCases(h: int)
    requires 0 <= h < 24
    ensures h == 0 ==> ClockLabel(h) == "12 AM"
    ensures h == 12 ==> ClockLabel(h) == "12 PM"
    ensures 1 <= h <= 11 ==> ClockLabel(h) == Decimal(h) + " AM"
    ensures 13 <= h <= 23 ==> ClockLabel(h) == Decimal(h - 12) + " PM"
  {
    assert Decimal(12) == "12" by {
      assert Decimal(1) == "1";
    }
  }

  /** Reads a 12-hour label back to the hour of the day it names. */
  function ParseClockLabel(s: string): Option<int>
  {
    if |s| < 4 || s[|s| - 3] != ' ' then None
    else
      var digits := s[..|s| - 3];
      var suffix := s[|s| - 2..];
      if !AllDigits(digits) || (suffix != "AM" && suffix != "PM") then None
      else
        var n := DecimalValue(digits);
        if n < 1 || n > 12 then None
        else Some(n % 12 + (if suffix == "PM" then 12 else 0))
  }

  /** Every label names its hour: reading it back gives the hour of the day. */
  lemma ClockLabelRoundTrip(h: int)
    requires 0 <= h < 24
    ensures ParseClockLabel(ClockLabel(h)) == Some(h)
  {
    var d := DialHour(h);
    DecimalRoundTrip(d);
    var s := ClockLabel(h);
    assert s == Decimal(d) + [' '] + Period(h);
    assert |Period(h)| == 2;
    assert s[..|s| - 3] == Decimal(d);
    assert s[|s| - 2..] == Period(h);
    assert s[|s| - 3] == ' ';
  }

  /** Distinct hours of the day get distinct labels. */
  lemma ClockLabelsDistinct(h1: int, h2: int)
    requires 0 <= h1 < 24 && 0 <= h2 < 24 && h1 != h2
    ensures ClockLabel(h1) != ClockLabel(h2)
  {
    ClockLabelRoundTrip(h1);
    ClockLabelRoundTrip(h2);
  }

  /** The label is a numeral from 1 to 12 with no leading zero, a space, and "AM"
      before noon or "PM" from noon on. */
  lemma ClockLabelShape(h: int)
    requires 0 <= h < 24
    ensures var s := ClockLabel(h);
      var digits := s[..|s| - 3];
      && |s| >= 4 && AllDigits(digits) && digits[0] != '0'
      && 1 <= DecimalValue(digits) <= 12
      && s[|s| - 3..] == (if h < 12 then " AM" else " PM")
  {
    var d := DialHour(h);
    DecimalRoundTrip(d);
    var s := ClockLabel(h);
    assert s == Decimal(d) + [' '] + Period(h);
    assert s[..|s| - 3] == Decimal(d);
    assert s[|s| - 3..] == [' '] + Period(h);
  }

  /** A fractional hour is truncated first: 9.0 and 9.75 are both "9 AM", and an hour
      just below zero such as -0.5 truncates to 0 and is "12 AM", while -1.0 fails. */
  lemma FormatHourLabelTruncates()
    ensures FormatHourLabel(Some(9.0)) == Ok("9 AM")
    ensures FormatHourLabel(Some(9.75)) == Ok("9 AM")
    ensures FormatHourLabel(Some(-0.5)) == Ok("12 AM")
    ensures FormatHourLabel(Some(-1.0)) == Err(HourOutOfRange(-1))
    ensures FormatHourLabel(Some(24.0)) == Err(HourOutOfRange(24))
    ensures FormatHourLabel(Some(23.0)) == Ok("11 PM")
  {
    assert Truncate(9.0) == 9;
    assert Truncate(9.75) == 9;
    assert Truncate(-0.5) == 0;
    assert Truncate(-1.0) == -1;
    assert Truncate(23.0) == 23;
    assert Decimal(9) + " AM" == "9 AM";
    assert Decimal(11) + " PM" == "11 PM" by {
      assert Decimal(1) == "1";
    }
  }
}
