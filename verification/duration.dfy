/**
 Rendering of a song's duration as `m:ss` (the `length_str` field of a song),
 together with a parser for that format, so that the rendering can be shown
 to lose no information.

 Python's `//` and `%` round towards negative infinity; with the positive
 divisor 60 that is exactly Dafny's Euclidean `/` and `%`, so the model uses
 them directly and stays faithful for negative lengths too.
 */
module Duration {

  import opened Options

  predicate IsDigit(c: char) {
    '0' <= c <= '9'
  }

  predicate AllDigits(s: string) {
    forall i :: 0 <= i < |s| ==> IsDigit(s[i])
  }

  function DigitChar(d: int): (c: char)
    requires 0 <= d < 10
    ensures IsDigit(c)
    ensures c as int - '0' as int == d
  {
    (('0' as int) + d) as char
  }

  function DigitValue(c: char): int {
    c as int - '0' as int
  }

  /** Python's `str(n)` for a natural number: decimal, no leading zeros. */
  function NatToString(n: nat): (s: string)
    ensures 1 <= |s|
    ensures AllDigits(s)
    ensures |s| > 1 ==> s[0] != '0'
    decreases n
  {
    if n < 10 then [DigitChar(n)] else NatToString(n / 10) + [DigitChar(n % 10)]
  }

  /** Python's `str(n)` for any integer: a minus sign before the digits of `-n`. */
  function IntToString(n: int): string {
    if n < 0 then "-" + NatToString(-n) else NatToString(n)
  }

  /** Python's `'%02d' % n` for `0 <= n < 100`: always exactly two digits. */
  function TwoDigits(n: int): (s: string)
    requires 0 <= n < 100
    ensures |s| == 2 && AllDigits(s)
    ensures DigitValue(s[0]) * 10 + DigitValue(s[1]) == n
  {
    [DigitChar(n / 10), DigitChar(n % 10)]
  }

  /** The `length_str` of a song whose length is `seconds`. */
  function LengthStr(seconds: int): (s: string)
    ensures 4 <= |s|
    ensures s[|s| - 3] == ':'
    ensures AllDigits(s[|s| - 2..])
    ensures DigitValue(s[|s| - 2]) * 10 + DigitValue(s[|s| - 1]) == seconds % 60
  {
    IntToString(seconds / 60) + ":" + TwoDigits(seconds % 60)
  }

  // ---------------------------------------------------------------------------
  // The inverse direction: reading a rendered duration back.
  // ---------------------------------------------------------------------------

  /** The value of a string of decimal digits (0 for the empty string). */
  function DigitsValue(s: string): int
    decreases |s|
  {
    if |s| == 0 then 0 else DigitsValue(s[..|s| - 1]) * 10 + DigitValue(s[|s| - 1])
  }

  /** An optionally negative decimal integer, as Python's `str` writes one. */
  predicate IsIntString(s: string) {
    if 0 < |s| && s[0] == '-' then 1 < |s| && AllDigits(s[1..])
    else 0 < |s| && AllDigits(s)
  }

  /** The value of a string accepted by `IsIntString`. */
  function ParseInt(s: string): int
    requires IsIntString(s)
  {
    if s[0] == '-' then -DigitsValue(s[1..]) else DigitsValue(s)
  }

  /** Reads `m:ss` back into a number of seconds, or fails on anything else. */
  function ParseLengthStr(s: string): Option<int>
  {
    if 4 <= |s| && s[|s| - 3] == ':' && AllDigits(s[|s| - 2..]) && IsIntString(s[..|s| - 3]) then
      Some(ParseInt(s[..|s| - 3]) * 60 + DigitValue(s[|s| - 2]) * 10 + DigitValue(s[|s| - 1]))
    else
      None
  }

  lemma {:induction false} NatToStringRoundTrip(n: nat)
    ensures DigitsValue(NatToString(n)) == n
    decreases n
  {
    if n >= 10 {
      var s := NatToString(n);
      assert s[..|s| - 1] == NatToString(n / 10);
      NatToStringRoundTrip(n / 10);
    }
  }

  lemma IntToStringRoundTrip(n: int)
    ensures IsIntString(IntToString(n))
    ensures ParseInt(IntToString(n)) == n
  {
    var s := IntToString(n);
    if n < 0 {
      assert s[1..] == NatToString(-n);
      NatToStringRoundTrip(-n);
    } else {
      NatToStringRoundTrip(n);
    }
  }

  /** Rendering a length as `m:ss` loses nothing: the parser recovers it. */
  lemma LengthStrRoundTrip(seconds: int)
    ensures ParseLengthStr(LengthStr(seconds)) == Some(seconds)
  {
    var m := IntToString(seconds / 60);
    var s := LengthStr(seconds);
    assert s[..|s| - 3] == m;
    IntToStringRoundTrip(seconds / 60);
  }

  /** Two different lengths never render to the same string. */
  lemma LengthStrInjective(a: int, b: int)
    requires LengthStr(a) == LengthStr(b)
    ensures a == b
  {
    LengthStrRoundTrip(a);
    LengthStrRoundTrip(b);
  }
}
