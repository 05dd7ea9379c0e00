/**
 * Duration text of the recorder screen (ex.js). `DurationFormatted` is
 * `getDurationFormatted` as written, which the recorder's list shows;
 * `DurationLabel` is the "m:ss" text it evidently means to produce.
 *
 * Milliseconds are whole and non-negative; the source's floating-point
 * division is computed exactly.
 */
module Duration {
  import opened Options

  const MS_PER_SECOND: nat := 1000
  const MS_PER_MINUTE: nat := 60000

  predicate IsDigit(c: char)
  {
    '0' <= c <= '9'
  }

  predicate AllDigits(s: string)
  {
    forall i :: 0 <= i < |s| ==> IsDigit(s[i])
  }

  function Digit(d: nat): (c: char)
    requires d < 10
    ensures IsDigit(c)
  {
    ('0' as int + d) as char
  }

  function DigitValue(c: char): nat
    requires IsDigit(c)
  {
    c as int - '0' as int
  }

  /** A non-negative number in a template string: its decimal digits, no leading zero. */
  function Decimal(n: nat): (s: string)
    ensures |s| >= 1 && AllDigits(s)
    ensures n < 10 <==> |s| == 1
    ensures n < 100 ==> |s| <= 2
    decreases n
  {
    if n < 10 then [Digit(n)] else Decimal(n / 10) + [Digit(n % 10)]
  }

  /** The number a string of digits spells. */
  function DigitsValue(s: string): nat
    requires AllDigits(s)
    decreases |s|
  {
    if s == [] then 0 else DigitsValue(s[..|s| - 1]) * 10 + DigitValue(s[|s| - 1])
  }

  /** Reading a rendered number gives the number back. */
  lemma {:induction false} DecimalReadsBack(n: nat)
    ensures DigitsValue(Decimal(n)) == n
    decreases n
  {
    if n >= 10 {
      var s := Decimal(n);
      assert s[..|s| - 1] == Decimal(n / 10);
      DecimalReadsBack(n / 10);
    }
  }

  /** `Math.floor(milliseconds / 1000 / 60)`: the whole minutes. */
  function WholeMinutes(ms: nat): (m: nat)
    ensures m * MS_PER_MINUTE <= ms < m * MS_PER_MINUTE + MS_PER_MINUTE
  {
    ms / MS_PER_MINUTE
  }

  /**
   * `Math.round((minutes - Math.floor(minutes)) * 60)`: the part of a minute
   * left over, in seconds, rounded half up. It can be 60.
   */
  function RoundedSeconds(ms: nat): (s: nat)
    ensures s <= 60
    ensures s * MS_PER_SECOND <= ms % MS_PER_MINUTE + 500 < s * MS_PER_SECOND + MS_PER_SECOND
  {
    (ms % MS_PER_MINUTE + 500) / MS_PER_SECOND
  }

  /** `getDurationFormatted` as written. */
  function DurationFormatted(ms: nat): (r: string)
    ensures |r| >= |Decimal(WholeMinutes(ms))|
    ensures r[..|Decimal(WholeMinutes(ms))|] == Decimal(WholeMinutes(ms))
    ensures |r| > |Decimal(WholeMinutes(ms))| <==> RoundedSeconds(ms) < 10
  {
    var minutes := Decimal(WholeMinutes(ms));
    var seconds := RoundedSeconds(ms);
    if seconds < 10 then minutes + ":0 " + Decimal(seconds) else minutes
  }

  /**
   * The two shapes of `getDurationFormatted`: below 10 rounded seconds it is
   * the minutes, ":0 " and one seconds digit; otherwise it is the minutes
   * alone and the seconds cannot be read from it.
   */
  lemma FormattedShapes(ms: nat)
    ensures var r := DurationFormatted(ms);
      (':' in r <==> RoundedSeconds(ms) < 10)
    ensures var r := DurationFormatted(ms);
      RoundedSeconds(ms) >= 10 ==> AllDigits(r) && DigitsValue(r) == WholeMinutes(ms)
    ensures var r := DurationFormatted(ms); var k := |Decimal(WholeMinutes(ms))|;
      RoundedSeconds(ms) < 10 ==>
        |r| == k + 4 && AllDigits(r[..k]) && DigitsValue(r[..k]) == WholeMinutes(ms) &&
        r[k..k + 3] == ":0 " && IsDigit(r[k + 3]) && DigitValue(r[k + 3]) == RoundedSeconds(ms)
  {
    var m := Decimal(WholeMinutes(ms));
    var s := RoundedSeconds(ms);
    var r := DurationFormatted(ms);
    DecimalReadsBack(WholeMinutes(ms));
    DecimalReadsBack(s);
    if s < 10 {
      assert r == m + ":0 " + Decimal(s);
      assert r[..|m|] == m;
      assert r[|m|] == ':';
    } else {
      assert r == m;
      assert forall i :: 0 <= i < |r| ==> r[i] != ':';
    }
  }

  /** Finding: 75 000 ms (1 min 15 s) reads "1", the seconds are dropped. */
  lemma SecondsDroppedAt75000()
    ensures DurationFormatted(75000) == "1"
    ensures DurationLabel(75000) == "1:15"
  {
  }

  /** Finding: 65 000 ms (1 min 5 s) reads "1:0 5", with a space in the padding. */
  lemma SpaceInPaddingAt65000()
    ensures DurationFormatted(65000) == "1:0 5"
    ensures DurationLabel(65000) == "1:05"
  {
  }

  /** Finding: 59 600 ms rounds to 60 seconds of minute 0 and reads "0". */
  lemma SixtySecondsAt59600()
    ensures RoundedSeconds(59600) == 60
    ensures DurationFormatted(59600) == "0"
    ensures DurationLabel(59600) == "1:00"
  {
  }

  /** The whole duration in seconds, rounded half up (the corrected label's rounding). */
  function TotalSeconds(ms: nat): (t: nat)
    ensures t * MS_PER_SECOND <= ms + 500 < t * MS_PER_SECOND + MS_PER_SECOND
  {
    (ms + 500) / MS_PER_SECOND
  }

  /** Minutes and seconds, as a clock shows them. */
  datatype Clock = Clock(minutes: nat, seconds: nat)

  /** The intended text: minutes, ':' and two seconds digits, the rounding carried into the minutes. */
  function DurationLabel(ms: nat): (r: string)
    ensures |r| >= 4 && r[|r| - 3] == ':'
    ensures AllDigits(r[..|r| - 3]) && AllDigits(r[|r| - 2..])
  {
    var total := TotalSeconds(ms);
    var seconds := total % 60;
    Decimal(total / 60) + ":" + (if seconds < 10 then "0" else "") + Decimal(seconds)
  }

  /** Reads an "m:ss" text back. */
  function ParseLabel(text: string): Option<Clock>
  {
    if |text| < 4 then None
    else
      var minutes := text[..|text| - 3];
      var seconds := text[|text| - 2..];
      if text[|text| - 3] == ':' && AllDigits(minutes) && AllDigits(seconds) then
        Some(Clock(DigitsValue(minutes), DigitsValue(seconds)))
      else
        None
  }

  /** The label reads back as a clock with seconds below 60 that adds up to the rounded duration. */
  lemma LabelReadsBack(ms: nat)
    ensures var c := ParseLabel(DurationLabel(ms));
      c.Some? && c.value.seconds < 60 && c.value.minutes * 60 + c.value.seconds == TotalSeconds(ms)
  {
    var total := TotalSeconds(ms);
    var m := Decimal(total / 60);
    var s := total % 60;
    var tail := (if s < 10 then "0" else "") + Decimal(s);
    var r := DurationLabel(ms);
    assert r == m + ":" + tail;
    assert |tail| == 2;
    assert r[..|r| - 3] == m;
    assert r[|r| - 2..] == tail;
    assert r[|r| - 3] == ':';
    DecimalReadsBack(total / 60);
    DecimalReadsBack(s);
    if s < 10 {
      assert tail[..1] == "0";
    } else {
      assert tail == Decimal(s);
    }
    assert DigitsValue(tail) == s;
  }
}
