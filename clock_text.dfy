/** The `MM:SS` time label of the player (`formatTime`), together with the
    pieces of JavaScript it is built from: `Math.floor` of a division,
    the truncating `%` operator, `Number.prototype.toString` on integers and
    `String.prototype.padStart(2, '0')`. */
module ClockText {

  predicate IsDigit(c: char) { '0' <= c <= '9' }

  function DigitChar(d: nat): (c: char)
    requires d < 10
    ensures IsDigit(c) && DigitValue(c) == d
  {
    ('0' as int + d) as char
  }

  function DigitValue(c: char): (d: nat)
    requires IsDigit(c)
    ensures d < 10
  {
    c as int - '0' as int
  }

  predicate AllDigits(s: string) { forall i :: 0 <= i < |s| ==> IsDigit(s[i]) }

  /** The number a decimal digit string denotes, most significant digit first. */
  function DigitsValue(s: string): nat
    requires AllDigits(s)
  {
    if s == [] then 0 else DigitsValue(s[..|s| - 1]) * 10 + DigitValue(s[|s| - 1])
  }

  /** Leading zeros do not change the value of a digit string. */
  lemma {:induction false} LeadingZero(s: string)
    requires AllDigits(s)
    ensures AllDigits("0" + s) && DigitsValue("0" + s) == DigitsValue(s)
  {
    var z := "0" + s;
    if s != [] {
      assert z[..|z| - 1] == "0" + s[..|s| - 1];
      assert z[|z| - 1] == s[|s| - 1];
      LeadingZero(s[..|s| - 1]);
    } else {
      assert z[..|z| - 1] == [];
    }
  }

  /** Decimal text of a non-negative integer, as `toString()` writes it. */
  function NatToString(n: nat): string
  {
    if n < 10 then [DigitChar(n)] else NatToString(n / 10) + [DigitChar(n % 10)]
  }

  /** `toString()` writes at least one character, all digits, and they
      read back as the number. */
  lemma {:induction false} NatToStringValue(n: nat)
    ensures |NatToString(n)| >= 1 && AllDigits(NatToString(n)) && DigitsValue(NatToString(n)) == n
  {
    var r := NatToString(n);
    if n < 10 {
      assert r[..0] == [];
    } else {
      var rest := NatToString(n / 10);
      NatToStringValue(n / 10);
      assert r[..|rest|] == rest;
    }
  }

  /** No leading zero except for zero itself; one digit exactly below 10,
      at most two exactly below 100. */
  lemma {:induction false} NatToStringShape(n: nat)
    ensures |NatToString(n)| >= 1
    ensures (NatToString(n)[0] == '0') == (n == 0)
    ensures n < 10 <==> |NatToString(n)| == 1
    ensures n < 100 <==> |NatToString(n)| <= 2
  {
    if n >= 10 {
      NatToStringShape(n / 10);
      assert NatToString(n)[0] == NatToString(n / 10)[0];
    }
  }

  /** `Number.prototype.toString()` on an integer: a minus sign in front of
      the digits of the magnitude when negative. */
  function IntToString(n: int): string
  {
    if n < 0 then "-" + NatToString(-n) else NatToString(n)
  }

  lemma IntToStringSpec(n: int)
    ensures n >= 0 ==> AllDigits(IntToString(n)) && DigitsValue(IntToString(n)) == n && |IntToString(n)| >= 1
    ensures n < 0 ==> var r := IntToString(n);
      |r| >= 2 && r[0] == '-' && AllDigits(r[1..]) && DigitsValue(r[1..]) == -n
  {
    NatToStringValue(if n < 0 then -n else n);
    if n < 0 {
      assert IntToString(n)[1..] == NatToString(-n);
    }
  }

  /** `s.padStart(2, '0')`. */
  function PadStart2(s: string): string
  {
    if |s| >= 2 then s else if |s| == 1 then "0" + s else "00"
  }

  /** Zeros are put in front up to length 2; a longer string is returned as
      it is, never truncated. */
  lemma PadStart2Spec(s: string)
    ensures var r := PadStart2(s);
      |r| == (if |s| >= 2 then |s| else 2) && r[|r| - |s|..] == s
      && forall i :: 0 <= i < |r| - |s| ==> r[i] == '0'
  {
  }

  /** `Math.floor(seconds / 60)`: the whole minutes, rounded down also for
      a negative time (Dafny's `/` by a positive divisor is floor division). */
  function FloorMinutes(seconds: int): (m: int)
    ensures m * 60 <= seconds < m * 60 + 60
  {
    seconds / 60
  }

  /** `seconds % 60` in JavaScript: the remainder takes the sign of the
      dividend (truncated division), unlike Dafny's `%`. */
  function JsRemSeconds(seconds: int): (r: int)
    ensures seconds >= 0 ==> 0 <= r < 60
    ensures seconds < 0 ==> -60 < r <= 0
    ensures (seconds - r) % 60 == 0
  {
    if seconds >= 0 then seconds % 60 else -((-seconds) % 60)
  }

  /** `formatTime(seconds)`: minutes and seconds, each zero-padded to two. */
  function FormatTime(seconds: int): string
  {
    PadStart2(IntToString(FloorMinutes(seconds))) + ":" + PadStart2(IntToString(JsRemSeconds(seconds)))
  }

  /** Padding a digit string keeps it a digit string of the same value. */
  lemma PadKeepsValue(s: string)
    requires |s| >= 1 && AllDigits(s)
    ensures AllDigits(PadStart2(s)) && DigitsValue(PadStart2(s)) == DigitsValue(s)
    ensures |PadStart2(s)| == if |s| >= 2 then |s| else 2
  {
    if |s| == 1 {
      LeadingZero(s);
    }
  }

  /** The minutes field of a clock label: everything before the last three characters. */
  function MinutesField(t: string): string
    requires |t| >= 3
  {
    t[..|t| - 3]
  }

  /** The seconds field of a clock label: the last two characters. */
  function SecondsField(t: string): string
    requires |t| >= 3
  {
    t[|t| - 2..]
  }

  /** A well-formed label: digits, a colon, two digits that read below 60. */
  predicate IsClock(t: string)
  {
    |t| >= 5 && t[|t| - 3] == ':' && AllDigits(MinutesField(t)) && AllDigits(SecondsField(t))
    && DigitsValue(SecondsField(t)) < 60
  }

  /** Reads a well-formed label back as a number of seconds. */
  function ClockSeconds(t: string): (n: nat)
    requires IsClock(t)
  {
    DigitsValue(MinutesField(t)) * 60 + DigitsValue(SecondsField(t))
  }

  /** A label glued from a minutes text, a colon and a two-character seconds text splits back into them. */
  lemma SplitFields(a: string, b: string)
    requires |b| == 2
    ensures |a + ":" + b| == |a| + 3 && (a + ":" + b)[|a|] == ':'
    ensures MinutesField(a + ":" + b) == a && SecondsField(a + ":" + b) == b
  {
  }

  /** The padded minutes: at least two digits, reading back as `m`, and
      exactly two when `m` is below 100. */
  lemma PaddedMinutes(m: nat)
    ensures var a := PadStart2(NatToString(m));
      |a| >= 2 && AllDigits(a) && DigitsValue(a) == m && (|a| == 2 <==> m < 100)
  {
    NatToStringValue(m);
    NatToStringShape(m);
    PadKeepsValue(NatToString(m));
  }

  /** The padded seconds: exactly two digits, reading back as `x`. */
  lemma PaddedSeconds(x: nat)
    requires x < 60
    ensures var b := PadStart2(NatToString(x));
      |b| == 2 && AllDigits(b) && DigitsValue(b) == x
  {
    NatToStringValue(x);
    NatToStringShape(x);
    PadKeepsValue(NatToString(x));
  }

  /** For a non-negative time the label is minutes (at least two digits), a
      colon and exactly two second digits below 60; it has exactly five
      characters precisely when the time is under 100 minutes. */
  lemma FormatTimeLayout(s: int)
    requires s >= 0
    ensures IsClock(FormatTime(s))
    ensures DigitsValue(MinutesField(FormatTime(s))) == s / 60
    ensures DigitsValue(SecondsField(FormatTime(s))) == s % 60
    ensures |FormatTime(s)| == 5 <==> s < 6000
  {
    var m, x := s / 60, s % 60;
    assert FloorMinutes(s) == m && JsRemSeconds(s) == x;
    var a, b := PadStart2(NatToString(m)), PadStart2(NatToString(x));
    assert FormatTime(s) == a + ":" + b;
    PaddedMinutes(m);
    PaddedSeconds(x);
    SplitFields(a, b);
  }

  /** The label of a non-negative time reads back as that time, so distinct
      times get distinct labels. */
  lemma FormatTimeRoundTrip(s: int)
    requires s >= 0
    ensures IsClock(FormatTime(s)) && ClockSeconds(FormatTime(s)) == s
  {
    FormatTimeLayout(s);
  }

  lemma FormatTimeInjective(s: int, u: int)
    requires s >= 0 && u >= 0 && FormatTime(s) == FormatTime(u)
    ensures s == u
  {
    FormatTimeRoundTrip(s);
    FormatTimeRoundTrip(u);
  }

  /** Concrete labels: the start, 2:05 and the default track length 3:33. */
  lemma FormatTimeExamples()
    ensures FormatTime(0) == "00:00"
    ensures FormatTime(125) == "02:05"
    ensures FormatTime(213) == "03:33"
  {
  }

  /** From 100 minutes on the label is longer than five characters, since
      padding never truncates. */
  lemma FormatTimeLongExample()
    ensures FormatTime(6000) == "100:00"
  {
  }

  /** A negative time: both JavaScript operators keep the sign, and each
      field is already two characters long, so nothing is padded. */
  lemma FormatTimeNegativeExample()
    ensures FormatTime(-5) == "-1:-5"
  {
  }
}
