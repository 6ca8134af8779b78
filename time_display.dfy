/** The `m:ss` text that the player shows for the elapsed time and for the
    duration of the current track: whole minutes without padding, a colon, and
    the remaining seconds padded to two digits with a leading zero.
    Time is a whole number of seconds. */
module TimeDisplay {

  datatype Option<T> = None | Some(value: T)

  predicate IsDigit(c: char) {
    '0' <= c <= '9'
  }

  predicate AllDigits(s: string) {
    forall i | 0 <= i < |s| :: IsDigit(s[i])
  }

  function DigitValue(c: char): (d: nat)
    requires IsDigit(c)
    ensures d < 10
  {
    c as int - '0' as int
  }

  function DigitChar(d: nat): (c: char)
    requires d < 10
    ensures IsDigit(c) && DigitValue(c) == d
  {
    ('0' as int + d) as char
  }

  /** JavaScript's string conversion of a non-negative integer: its decimal
      digits, most significant first, with no leading zero. */
  function DecimalString(n: nat): (s: string)
    ensures 1 <= |s|
    ensures AllDigits(s)
    ensures |s| == 1 <==> n < 10
    ensures s[0] == '0' ==> s == "0"
  {
    if n < 10 then [DigitChar(n)] else DecimalString(n / 10) + [DigitChar(n % 10)]
  }

  /** The value of a string of decimal digits; the reference against which
      DecimalString is checked. */
  function ParseDecimal(s: string): nat
    requires AllDigits(s)
  {
    if |s| == 0 then 0 else ParseDecimal(s[..|s| - 1]) * 10 + DigitValue(s[|s| - 1])
  }

  /** JavaScript's `s.slice(-2)`: the last two characters of `s`, or all of
      `s` when it is shorter than that. */
  function SliceLast2(s: string): (r: string)
    ensures |r| == if |s| < 2 then |s| else 2
    ensures s == s[..|s| - |r|] + r
  {
    if |s| < 2 then s else s[|s| - 2..]
  }

  /** The seconds field: `("0" + sec).slice(-2)` for the seconds `sec` left
      over after the whole minutes. It is always the two decimal digits of
      `sec`, the first of them a zero when `sec` is below ten. */
  function PadSeconds(sec: nat): (r: string)
    requires sec < 60
    ensures r == [DigitChar(sec / 10), DigitChar(sec % 10)]
  {
    var padded := "0" + DecimalString(sec);
    if sec < 10 then
      assert padded == ['0', DigitChar(sec)];
      SliceLast2(padded)
    else
      assert DecimalString(sec / 10) == [DigitChar(sec / 10)];
      assert padded == ['0', DigitChar(sec / 10), DigitChar(sec % 10)];
      SliceLast2(padded)
  }

  /** The text shown for `t` seconds: `Math.floor(t / 60)`, a colon, then the
      padded seconds field. */
  function FormatTime(t: nat): string {
    DecimalString(t / 60) + ":" + PadSeconds(t % 60)
  }

  /** The text shown for the duration of the current track: the formatted
      duration once the audio element exists, and the fixed placeholder
      "0:00" before it does. */
  function DurationDisplay(duration: Option<nat>): string {
    match duration
    case None => "0:00"
    case Some(t) => FormatTime(t)
  }

  /** Reads an `m:ss` text back into seconds; the inverse that FormatTime is
      checked against. Minutes are any run of digits, seconds exactly two
      digits below 60. */
  function ParseTime(s: string): Option<nat> {
    if |s| < 4 || s[|s| - 3] != ':' then None
    else
      var minutes, tens, units := s[..|s| - 3], s[|s| - 2], s[|s| - 1];
      if AllDigits(minutes) && IsDigit(tens) && IsDigit(units) && DigitValue(tens) < 6
      then Some(ParseDecimal(minutes) * 60 + DigitValue(tens) * 10 + DigitValue(units))
      else None
  }

  lemma {:induction false} DecimalStringRoundTrip(n: nat)
    ensures ParseDecimal(DecimalString(n)) == n
  {
    var s := DecimalString(n);
    if n < 10 {
      assert s[..|s| - 1] == [];
    } else {
      assert s[..|s| - 1] == DecimalString(n / 10);
      DecimalStringRoundTrip(n / 10);
    }
  }

  /** Every formatted time reads back as the number of seconds it was made
      from: the minutes are `t / 60` and the two-digit field is `t % 60`. */
  lemma FormatTimeRoundTrip(t: nat)
    ensures ParseTime(FormatTime(t)) == Some(t)
  {
    var m, sec := t / 60, t % 60;
    var s := FormatTime(t);
    var d := DecimalString(m);
    assert s == d + ":" + [DigitChar(sec / 10), DigitChar(sec % 10)];
    assert s[..|s| - 3] == d;
    assert s[|s| - 3] == ':';
    DecimalStringRoundTrip(m);
    assert ParseDecimal(d) * 60 + DigitValue(s[|s| - 2]) * 10 + DigitValue(s[|s| - 1]) == t;
  }

  /** The seconds field is exactly two characters for every time; in front
      of the colon stand the unpadded decimal minutes and nothing else. */
  lemma FormatTimeShape(t: nat)
    ensures |PadSeconds(t % 60)| == 2
    ensures var s := FormatTime(t);
      |s| == |DecimalString(t / 60)| + 3 && s[|s| - 3] == ':' &&
      s[..|s| - 3] == DecimalString(t / 60) && IsDigit(s[|s| - 2]) && IsDigit(s[|s| - 1])
  {
    var d, p := DecimalString(t / 60), PadSeconds(t % 60);
    var s := FormatTime(t);
    assert s == d + [':'] + p;
    assert s[..|s| - 3] == d;
    assert s[|s| - 2] == p[0] && s[|s| - 1] == p[1];
  }

  /** The worked examples: 125 s, 59 s and 600 s. */
  lemma FormatTimeExamples()
    ensures FormatTime(125) == "2:05"
    ensures FormatTime(59) == "0:59"
    ensures FormatTime(600) == "10:00"
  {
    assert DigitChar(0) == '0' && DigitChar(1) == '1' && DigitChar(2) == '2';
    assert DigitChar(5) == '5' && DigitChar(9) == '9';
    assert FormatTime(125) == DecimalString(2) + ":" + [DigitChar(0), DigitChar(5)];
    assert FormatTime(59) == DecimalString(0) + ":" + [DigitChar(5), DigitChar(9)];
    assert DecimalString(10) == DecimalString(1) + [DigitChar(0)];
    assert FormatTime(600) == DecimalString(10) + ":" + [DigitChar(0), DigitChar(0)];
  }

  /** The placeholder shown before the audio element exists is the text of a
      zero duration, and every duration text reads back as its duration
      (zero for the placeholder). */
  lemma DurationDisplayReadsBack(duration: Option<nat>)
    ensures DurationDisplay(None) == FormatTime(0)
    ensures ParseTime(DurationDisplay(duration)) == Some(if duration.Some? then duration.value else 0)
  {
    FormatTimeRoundTrip(0);
    if duration.Some? {
      FormatTimeRoundTrip(duration.value);
    }
  }
}
