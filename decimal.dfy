/** Decimal numerals: Python's `"%s" % n` for an integer and `int(line)` in base 10. */
module Decimal {
  import opened Basics
  import opened Text

  predicate IsDigit(c: char) {
    '0' <= c <= '9'
  }

  predicate AllDigits(s: string) {
    forall k :: 0 <= k < |s| ==> IsDigit(s[k])
  }

  function DigitChar(d: nat): (c: char)
    requires d < 10
    ensures IsDigit(c)
  {
    ('0' as int + d) as char
  }

  function DigitValue(c: char): (d: nat)
    requires IsDigit(c)
    ensures d < 10
  {
    c as int - '0' as int
  }

  /** The decimal numeral of a non-negative integer, without leading zeros. */
  function NatToString(n: nat): (s: string)
    ensures s != [] && AllDigits(s)
    ensures |s| > 1 ==> s[0] != '0'
  {
    if n < 10 then [DigitChar(n)] else NatToString(n / 10) + [DigitChar(n % 10)]
  }

  /** The value of a string of decimal digits. */
  function DigitsValue(s: string): nat
    requires AllDigits(s)
  {
    if s == [] then 0 else 10 * DigitsValue(s[..|s| - 1]) + DigitValue(s[|s| - 1])
  }

  lemma {:induction false} NatRoundTrip(n: nat)
    ensures DigitsValue(NatToString(n)) == n
  {
    if n >= 10 {
      NatRoundTrip(n / 10);
      var s := NatToString(n);
      assert s[..|s| - 1] == NatToString(n / 10);
      assert DigitValue(DigitChar(n % 10)) == n % 10;
    }
  }

  /** `str(i)` for an integer: a '-' sign for negatives, then the digits. The numeral
      is a single token: no whitespace at its ends and no line break. */
  function IntToString(i: int): (s: string)
    ensures s != [] && !IsSpace(s[0]) && !IsSpace(s[|s| - 1])
    ensures '\n' !in s
  {
    if i < 0 then "-" + NatToString(-i) else NatToString(i)
  }

  /** Python's `int(line)`: surrounding whitespace is ignored, then an optional sign
      and at least one decimal digit; anything else is a ValueError (None). */
  function ParseInt(line: string): Option<int> {
    ParseNumeral(Strip(line))
  }

  /** An optional sign and at least one decimal digit, and nothing else. */
  function ParseNumeral(t: string): Option<int> {
    if t != [] && (t[0] == '-' || t[0] == '+') then
      var d := t[1..];
      if d != [] && AllDigits(d) then
        var v: int := DigitsValue(d);
        Some(if t[0] == '-' then -v else v)
      else None
    else if t != [] && AllDigits(t) then Some(DigitsValue(t))
    else None
  }

  lemma NegativeNumeral(d: string)
    requires d != [] && AllDigits(d)
    ensures ParseNumeral("-" + d) == Some(-(DigitsValue(d) as int))
  {
    var t := "-" + d;
    assert t[0] == '-' && t[1..] == d;
  }

  lemma DigitsNumeral(d: string)
    requires d != [] && AllDigits(d)
    ensures ParseNumeral(d) == Some(DigitsValue(d) as int)
  {
    assert IsDigit(d[0]);
  }

  /** `int("%s" % i) == i`: every integer the bot writes reads back as itself. */
  lemma IntRoundTrip(i: int)
    ensures ParseInt(IntToString(i)) == Some(i)
  {
    var s := IntToString(i);
    StripUnpadded(s);
    if i < 0 {
      NatRoundTrip(-i);
      NegativeNumeral(NatToString(-i));
    } else {
      NatRoundTrip(i);
      DigitsNumeral(NatToString(i));
    }
  }
}
