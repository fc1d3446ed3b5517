/**
 * Decimal text of integers, as a JavaScript template literal (`${n}`) writes
 * an integral number below 10^21 in magnitude (larger ones switch to
 * exponent form, which is not modelled), and the parser that reads it back.
 */
module Decimal {

  import opened Wrappers

  predicate IsDigit(c: char) {
    '0' <= c <= '9'
  }

  predicate AllDigits(s: string) {
    forall i :: 0 <= i < |s| ==> IsDigit(s[i])
  }

  function DigitChar(d: nat): (c: char)
    requires d < 10
    ensures IsDigit(c) && c as int - '0' as int == d
  {
    ('0' as int + d) as char
  }

  /** The shortest decimal text of `n`: no sign, no leading zero. */
  function NatText(n: nat): (s: string)
    ensures |s| >= 1 && AllDigits(s)
    ensures n >= 10 ==> |s| >= 2
    ensures s[0] == '0' ==> n == 0
  {
    if n < 10 then [DigitChar(n)] else NatText(n / 10) + [DigitChar(n % 10)]
  }

  /** The value of a string of decimal digits. */
  function DigitsValue(s: string): nat
    requires AllDigits(s)
  {
    if s == [] then 0
    else 10 * DigitsValue(s[..|s| - 1]) + (s[|s| - 1] as int - '0' as int)
  }

  /** Reading the text of `n` back gives `n`. */
  lemma {:induction false} NatTextRoundTrip(n: nat)
    ensures DigitsValue(NatText(n)) == n
  {
    if n >= 10 {
      var s := NatText(n);
      assert s[..|s| - 1] == NatText(n / 10);
      NatTextRoundTrip(n / 10);
    }
  }

  lemma NatTextInjective(a: nat, b: nat)
    ensures NatText(a) == NatText(b) ==> a == b
  {
    NatTextRoundTrip(a);
    NatTextRoundTrip(b);
  }

  /** Text of an integer: a minus sign before the digits of a negative one. */
  function IntText(i: int): string {
    if i < 0 then "-" + NatText(-i) else NatText(i)
  }

  /** The inverse of IntText on well-formed numerals, None otherwise. */
  function ParseInt(s: string): Option<int> {
    if |s| >= 2 && s[0] == '-' && AllDigits(s[1..]) then Some(-(DigitsValue(s[1..]) as int))
    else if |s| >= 1 && AllDigits(s) then Some(DigitsValue(s))
    else None
  }

  lemma IntTextRoundTrip(i: int)
    ensures ParseInt(IntText(i)) == Some(i)
  {
    if i < 0 {
      var digits := NatText(-i);
      var s := "-" + digits;
      assert s == IntText(i);
      assert s[1..] == digits;
      assert |s| >= 2 && s[0] == '-' && AllDigits(s[1..]);
      NatTextRoundTrip(-i);
      assert DigitsValue(s[1..]) == -i;
    } else {
      var s := NatText(i);
      assert s == IntText(i);
      assert IsDigit(s[0]);
      NatTextRoundTrip(i);
      assert ParseInt(s) == Some(DigitsValue(s));
    }
  }

  /** Every character of `x` is a digit and the one after it is `sep`. */
  lemma DigitsThenSeparator(s: string, x: string, sep: char, rest: string)
    requires s == x + [sep] + rest && AllDigits(x)
    ensures |x| < |s| && s[|x|] == sep
    ensures forall i :: 0 <= i < |x| ==> IsDigit(s[i])
  {
  }

  /**
   * When a digit string is followed by a non-digit separator, the separator
   * tells where the digits end: the split is unique.
   */
  lemma SplitAtSeparator(x: string, y: string, u: string, v: string, sep: char)
    requires AllDigits(x) && AllDigits(u) && !IsDigit(sep)
    requires x + [sep] + y == u + [sep] + v
    ensures x == u && y == v
  {
    var s := x + [sep] + y;
    DigitsThenSeparator(s, x, sep, y);
    DigitsThenSeparator(s, u, sep, v);
    assert |x| == |u|;
    assert x == s[..|x|] == u;
    assert y == s[|x| + 1..] == v;
  }
}
