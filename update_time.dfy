/**
 * The "last updated" line of the widget: the wall-clock time formatted with
 * the pattern "HH:mm" (hour of day 00-23 and minute, each as two zero-padded
 * digits), after a fixed Vietnamese label.
 */
module UpdateTime {
  import opened Wrappers

  type Hour = h: int | 0 <= h < 24
  type Minute = m: int | 0 <= m < 60

  /** One reading of the wall clock, reduced to what the pattern shows. */
  datatype ClockReading = ClockReading(hour: Hour, minute: Minute)

  /** The label in front of the time ("Updated at: "). */
  const UpdateLabel: string := "Cập nhật lúc: "

  predicate IsDigit(c: char) { '0' <= c <= '9' }

  function DigitValue(c: char): int { c as int - '0' as int }

  function DigitChar(d: int): (c: char)
    requires 0 <= d < 10
    ensures IsDigit(c) && DigitValue(c) == d
  {
    ('0' as int + d) as char
  }

  /** A two-digit field, zero-padded; reading its digits back gives `n`. */
  function TwoDigits(n: int): (s: string)
    requires 0 <= n < 100
    ensures |s| == 2 && IsDigit(s[0]) && IsDigit(s[1])
    ensures DigitValue(s[0]) * 10 + DigitValue(s[1]) == n
  {
    [DigitChar(n / 10), DigitChar(n % 10)]
  }

  /** The time as "HH:mm". */
  function FormatHHmm(t: ClockReading): (s: string)
    ensures |s| == 5 && s[2] == ':'
    ensures IsDigit(s[0]) && IsDigit(s[1]) && IsDigit(s[3]) && IsDigit(s[4])
    ensures DigitValue(s[0]) * 10 + DigitValue(s[1]) == t.hour
    ensures DigitValue(s[3]) * 10 + DigitValue(s[4]) == t.minute
  {
    TwoDigits(t.hour) + ":" + TwoDigits(t.minute)
  }

  /** Reads an "HH:mm" string back; None when it is not one. */
  function ParseHHmm(s: string): (r: Option<ClockReading>)
    ensures r.Some? ==> |s| == 5 && s[2] == ':'
  {
    if |s| == 5 && s[2] == ':' && IsDigit(s[0]) && IsDigit(s[1]) && IsDigit(s[3]) && IsDigit(s[4]) then
      var h := DigitValue(s[0]) * 10 + DigitValue(s[1]);
      var m := DigitValue(s[3]) * 10 + DigitValue(s[4]);
      if h < 24 && m < 60 then Some(ClockReading(h, m)) else None
    else
      None
  }

  /** The displayed time determines the clock reading: formatting loses nothing. */
  lemma FormatRoundTrip(t: ClockReading)
    ensures ParseHHmm(FormatHHmm(t)) == Some(t)
  {
  }

  /** The whole line: the label, then exactly the five characters of "HH:mm". */
  function UpdateTimeText(t: ClockReading): (s: string)
    ensures |s| == |UpdateLabel| + 5
    ensures s[..|UpdateLabel|] == UpdateLabel
    ensures ParseHHmm(s[|UpdateLabel|..]) == Some(t)
  {
    FormatRoundTrip(t);
    UpdateLabel + FormatHHmm(t)
  }
}
