/** String operations of `java.lang.String` and `Integer.toString`
    used by the demos. */
module Strings {

  /** `s.endsWith(suffix)`: case-sensitive comparison of the last
      `|suffix|` characters; every string ends with "". */
  predicate EndsWith(s: string, suffix: string) {
    |suffix| <= |s| && s[|s| - |suffix|..] == suffix
  }

  /** Appending a suffix makes the string end with it. */
  lemma EndsWithAppended(stem: string, suffix: string)
    ensures EndsWith(stem + suffix, suffix)
  {
    assert (stem + suffix)[|stem|..] == suffix;
  }

  /** A string ends with a suffix exactly when it is some stem followed by
      that suffix; the stem is the part in front of the suffix. */
  lemma EndsWithIffStem(s: string, suffix: string)
    ensures EndsWith(s, suffix) <==> exists stem :: s == stem + suffix
    ensures EndsWith(s, suffix) ==> s == s[..|s| - |suffix|] + suffix
  {
    if EndsWith(s, suffix) {
      assert s == s[..|s| - |suffix|] + suffix;
    }
    if exists stem :: s == stem + suffix {
      var stem :| s == stem + suffix;
      EndsWithAppended(stem, suffix);
    }
  }

  /** Two suffixes of the same length of one string are equal. */
  lemma EndsWithSameLength(s: string, a: string, b: string)
    requires |a| == |b|
    requires EndsWith(s, a) && EndsWith(s, b)
    ensures a == b
  {
  }

  /** Equal strings with a common tail have equal heads. */
  lemma CancelSuffix(a: string, b: string, tail: string)
    requires a + tail == b + tail
    ensures a == b
  {
    assert |a| == |b|;
    assert a == (a + tail)[..|a|];
    assert b == (b + tail)[..|b|];
  }

  /** Equal strings with a common head have equal tails. */
  lemma CancelPrefix(head: string, a: string, b: string)
    requires head + a == head + b
    ensures a == b
  {
    assert a == (head + a)[|head|..];
    assert b == (head + b)[|head|..];
  }

  predicate IsDigit(c: char) {
    '0' <= c <= '9'
  }

  predicate AllDigits(s: string) {
    forall i | 0 <= i < |s| :: IsDigit(s[i])
  }

  function DigitChar(d: nat): (c: char)
    requires d < 10
    ensures IsDigit(c)
  {
    "0123456789"[d]
  }

  function DigitValue(c: char): (d: nat)
    requires IsDigit(c)
    ensures d < 10
    ensures DigitChar(d) == c
  {
    (c as int - '0' as int) as nat
  }

  /** Decimal rendering of a natural number, without leading zeros. */
  function NatToString(n: nat): (r: string)
    ensures |r| >= 1 && AllDigits(r)
    ensures r[0] == '0' ==> n == 0
    decreases n
  {
    if n < 10 then [DigitChar(n)]
    else NatToString(n / 10) + [DigitChar(n % 10)]
  }

  /** Reads a non-empty string of decimal digits back as a number;
      the inverse of `NatToString`. */
  function ParseDigits(s: string): nat
    requires |s| >= 1 && AllDigits(s)
    decreases |s|
  {
    if |s| == 1 then DigitValue(s[0])
    else 10 * ParseDigits(s[..|s| - 1]) + DigitValue(s[|s| - 1])
  }

  lemma {:induction false} ParseNatToString(n: nat)
    ensures ParseDigits(NatToString(n)) == n
    decreases n
  {
    if n >= 10 {
      var s := NatToString(n);
      assert s[..|s| - 1] == NatToString(n / 10);
      ParseNatToString(n / 10);
    }
  }

  /** Java's decimal rendering of an `int` or `long`: a minus sign for
      negative values, then the digits of the magnitude. */
  function IntToString(i: int): (r: string)
    ensures |r| >= 1
    ensures i < 0 <==> r[0] == '-'
    ensures r[0] == '-' || IsDigit(r[0])
  {
    if i < 0 then "-" + NatToString(-i) else NatToString(i)
  }

  /** Different numbers never print the same. */
  lemma IntToStringInjective(a: int, b: int)
    requires IntToString(a) == IntToString(b)
    ensures a == b
  {
    if a < 0 {
      CancelPrefix("-", NatToString(-a), NatToString(-b));
      ParseNatToString(-a);
      ParseNatToString(-b);
    } else {
      ParseNatToString(a);
      ParseNatToString(b);
    }
  }
}
