/** `formatResetTime`: a countdown to a window's reset, as display text.
    The model takes the difference `resetsAt - now` in milliseconds; parsing
    the ISO-8601 instant and reading the clock happen outside. */
module TimeFormatter {

  const MillisPerSecond: int := 1000
  const SecondsPerMinute: int := 60
  const SecondsPerHour: int := 3600
  const SecondsPerDay: int := 86400

  const PassedText: string := "Reset time passed"

  predicate IsDigit(c: char) { '0' <= c <= '9' }

  ghost predicate AllDigits(s: string) { forall i :: 0 <= i < |s| ==> IsDigit(s[i]) }

  function DigitChar(d: nat): (c: char)
    requires d < 10
    ensures IsDigit(c) && c as int - '0' as int == d
  {
    ['0', '1', '2', '3', '4', '5', '6', '7', '8', '9'][d]
  }

  /** Decimal rendering of a whole number, as a template literal `${n}` gives it. */
  function NatToString(n: nat): (s: string)
    ensures |s| >= 1 && AllDigits(s)
    ensures |s| > 1 ==> s[0] != '0'
    decreases n
  {
    if n < 10 then [DigitChar(n)] else NatToString(n / 10) + [DigitChar(n % 10)]
  }

  /** The value a string of decimal digits denotes. */
  function ParseNat(s: string): nat
    requires AllDigits(s)
  {
    if s == [] then 0 else 10 * ParseNat(s[..|s| - 1]) + (s[|s| - 1] as int - '0' as int)
  }

  /** Decimal rendering loses nothing: reading the digits back gives `n`. */
  lemma {:induction false} ParseNatToString(n: nat)
    ensures ParseNat(NatToString(n)) == n
    decreases n
  {
    var s := NatToString(n);
    if n >= 10 {
      ParseNatToString(n / 10);
      assert s[..|s| - 1] == NatToString(n / 10);
    }
  }

  /** Distinct numbers are rendered differently. */
  lemma NatToStringInjective(m: nat, n: nat)
    requires NatToString(m) == NatToString(n)
    ensures m == n
  {
    ParseNatToString(m);
    ParseNatToString(n);
  }

  /** `Math.floor(delta / 1000)`: Dafny's division by a positive divisor
      already rounds toward negative infinity. */
  function Seconds(deltaMs: int): (s: int)
    ensures s * MillisPerSecond <= deltaMs < s * MillisPerSecond + MillisPerSecond
  {
    deltaMs / MillisPerSecond
  }

  function Plural(n: nat, one: string, many: string): string
  {
    if n == 1 then one else many
  }

  /** The text for a countdown of `seconds` whole seconds. */
  function FormatSeconds(seconds: int): string
  {
    if seconds < 0 then
      PassedText
    else if seconds < SecondsPerHour then
      var minutes := seconds / SecondsPerMinute;
      NatToString(minutes) + " " + Plural(minutes, "minute", "minutes")
    else if seconds < SecondsPerDay then
      var hours := seconds / SecondsPerHour;
      var minutes := (seconds % SecondsPerHour) / SecondsPerMinute;
      if minutes > 0 then
        NatToString(hours) + "h " + NatToString(minutes) + "m"
      else
        NatToString(hours) + " " + Plural(hours, "hour", "hours")
    else
      var days := seconds / SecondsPerDay;
      var hours := (seconds % SecondsPerDay) / SecondsPerHour;
      if hours > 0 then
        NatToString(days) + "d " + NatToString(hours) + "h"
      else
        NatToString(days) + " " + Plural(days, "day", "days")
  }

  /** `formatResetTime`, given the milliseconds from now to the reset. */
  function FormatResetTime(deltaMs: int): string
  {
    FormatSeconds(Seconds(deltaMs))
  }

  // ---------------------------------------------------------------------------
  // Properties

  lemma MulMonotone(a: int, b: int, d: int)
    requires a <= b && d > 0
    ensures a * d <= b * d
  {
    var k := b - a;
    assert b * d == a * d + k * d;
  }

  /** A whole-number quotient is the unique `q` with `q*d <= x < q*d + d`. */
  lemma DivUnique(x: int, d: int, q: int)
    requires d > 0 && q * d <= x < q * d + d
    ensures x / d == q
  {
    var p := x / d;
    assert p * d <= x < p * d + d;
    if p < q {
      MulMonotone(p + 1, q, d);
    } else if p > q {
      MulMonotone(q + 1, p, d);
    }
  }

  /** The seconds count is the floor of the milliseconds over 1000. */
  lemma SecondsIsFloor(deltaMs: int, s: int)
    requires s * 1000 <= deltaMs < s * 1000 + 1000
    ensures Seconds(deltaMs) == s
  {
    DivUnique(deltaMs, 1000, s);
  }

  /** Every negative count, and only a negative count, reads "Reset time passed";
      every other output starts with a digit. */
  lemma PassedIff(seconds: int)
    ensures FormatSeconds(seconds) == PassedText <==> seconds < 0
    ensures seconds >= 0 ==> IsDigit(FormatSeconds(seconds)[0])
  {
    if seconds >= 0 {
      var r := FormatSeconds(seconds);
      assert IsDigit(r[0]);
      assert !IsDigit(PassedText[0]);
    }
  }

  /** A reset one millisecond in the past has already passed. */
  lemma OneMillisecondLateHasPassed()
    ensures FormatResetTime(-1) == PassedText
  {
  }

  /** Under an hour: whole minutes, rounded down, with the singular only for 1. */
  lemma MinutesBucket(seconds: int, m: nat)
    requires 0 <= seconds < SecondsPerHour
    requires m * 60 <= seconds < m * 60 + 60
    ensures m < 60
    ensures FormatSeconds(seconds) == NatToString(m) + " " + (if m == 1 then "minute" else "minutes")
  {
    DivUnique(seconds, 60, m);
  }

  /** From one hour to under a day: hours and the leftover whole minutes; the
      minutes are dropped when zero. */
  lemma HoursBucket(seconds: int, h: nat, m: nat)
    requires SecondsPerHour <= seconds < SecondsPerDay
    requires m < 60 && h * 3600 + m * 60 <= seconds < h * 3600 + m * 60 + 60
    ensures 1 <= h < 24
    ensures FormatSeconds(seconds) ==
      if m > 0 then NatToString(h) + "h " + NatToString(m) + "m"
      else NatToString(h) + " " + (if h == 1 then "hour" else "hours")
  {
    DivUnique(seconds, 3600, h);
    DivUnique(seconds % 3600, 60, m);
  }

  /** A day or more: days and the leftover whole hours; the hours are dropped
      when zero. */
  lemma DaysBucket(seconds: int, d: nat, h: nat)
    requires SecondsPerDay <= seconds
    requires h < 24 && d * 86400 + h * 3600 <= seconds < d * 86400 + h * 3600 + 3600
    ensures 1 <= d
    ensures FormatSeconds(seconds) ==
      if h > 0 then NatToString(d) + "d " + NatToString(h) + "h"
      else NatToString(d) + " " + (if d == 1 then "day" else "days")
  {
    DivUnique(seconds, 86400, d);
    DivUnique(seconds % 86400, 3600, h);
  }

  /** The decomposition used by the hours bucket is bounded and exact to the minute. */
  lemma HoursComponentsBounded(seconds: int)
    requires SecondsPerHour <= seconds < SecondsPerDay
    ensures var h, m := seconds / 3600, (seconds % 3600) / 60;
      1 <= h < 24 && 0 <= m < 60 && h * 3600 + m * 60 <= seconds < h * 3600 + (m + 1) * 60
  {
  }

  /** The decomposition used by the days bucket is bounded and exact to the hour. */
  lemma DaysComponentsBounded(seconds: int)
    requires SecondsPerDay <= seconds
    ensures var d, h := seconds / 86400, (seconds % 86400) / 3600;
      1 <= d && 0 <= h < 24 && d * 86400 + h * 3600 <= seconds < d * 86400 + (h + 1) * 3600
  {
  }

  /** Worked examples in the minutes bucket: 90 s, and just under a minute. */
  lemma MinuteExamples()
    ensures FormatResetTime(90_000) == "1 minute"
    ensures FormatResetTime(59_999) == "0 minutes"
  {
    assert NatToString(0) == "0";
    assert NatToString(1) == "1";
  }

  /** Worked examples in the hours bucket: 7265 s, and the plain-hour forms. */
  lemma HourExamples()
    ensures FormatResetTime(7_265_000) == "2h 1m"
    ensures FormatResetTime(3_600_000) == "1 hour"
    ensures FormatResetTime(7_200_999) == "2 hours"
  {
    assert NatToString(1) == "1";
    assert NatToString(2) == "2";
  }

  /** Worked examples in the days bucket. */
  lemma DayExamples()
    ensures FormatResetTime(86_400_000) == "1 day"
    ensures FormatResetTime(90_000_000) == "1d 1h"
    ensures FormatResetTime(172_800_000) == "2 days"
  {
    assert NatToString(1) == "1";
    assert NatToString(2) == "2";
  }
}
