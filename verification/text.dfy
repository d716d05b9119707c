/** The parts of Python's string and number conversions that the display
    strings use: `str(int)`, `int(float)` and `str.split(sep)[0]`. */
module Text {

  predicate IsDigit(c: char)
  {
    '0' <= c <= '9'
  }

  /** The characters `str()` of an integer can produce. */
  predicate IsNumeral(c: char)
  {
    IsDigit(c) || c == '-'
  }

  function Digit(d: nat): (c: char)
    requires d < 10
    ensures IsDigit(c) && c as int - '0' as int == d
  {
    ('0' as int + d) as char
  }

  /** The value of a string of decimal digits, most significant first. */
  function DigitsValue(s: string): nat
    requires forall i | 0 <= i < |s| :: IsDigit(s[i])
  {
    if s == [] then 0
    else
      var last := s[|s| - 1];
      assert IsDigit(last);
      10 * DigitsValue(s[..|s| - 1]) + (last as int - '0' as int)
  }

  /** `str(n)` for a non-negative integer: decimal digits without leading zeros. */
  function NatToString(n: nat): (s: string)
    ensures |s| > 0
    ensures forall i | 0 <= i < |s| :: IsDigit(s[i])
    ensures s[0] == '0' ==> |s| == 1
    ensures DigitsValue(s) == n
  {
    if n < 10 then [Digit(n)]
    else
      var init := NatToString(n / 10);
      var s := init + [Digit(n % 10)];
      assert s[..|s| - 1] == init;
      s
  }

  /** `str(i)` for any integer: a minus sign before the digits of |i| when negative. */
  function IntToString(i: int): (s: string)
    ensures |s| > 0
    ensures forall k | 0 <= k < |s| :: IsNumeral(s[k])
    ensures (i < 0) == (s[0] == '-')
    ensures i >= 0 ==> (forall k | 0 <= k < |s| :: IsDigit(s[k])) && DigitsValue(s) == i
    ensures i < 0 ==> |s| > 1 && (forall k | 1 <= k < |s| :: IsDigit(s[k])) && DigitsValue(s[1..]) == -i
  {
    if i < 0 then "-" + NatToString(-i) else NatToString(i)
  }

  /** `str(i)` has no leading zero: "0" is the only text starting with '0', and
      a minus sign is never followed by '0'. */
  lemma IntToStringCanonical(i: int)
    ensures IntToString(i)[0] == '0' ==> IntToString(i) == "0"
    ensures i < 0 ==> IntToString(i)[1] != '0'
  {
    if i < 0 {
      var digits := NatToString(-i);
      assert IntToString(i)[1..] == digits;
    }
  }

  /** `str()` of an integer determines the integer. */
  lemma IntToStringInjective(a: int, b: int)
    requires IntToString(a) == IntToString(b)
    ensures a == b
  {
    var s := IntToString(a);
    if a < 0 {
      assert DigitsValue(s[1..]) == -a && DigitsValue(IntToString(b)[1..]) == -b;
    }
  }

  /** The length of the longest prefix of `s` made of numerals. */
  function NumeralRun(s: string): (n: nat)
    ensures n <= |s|
  {
    if s == [] || !IsNumeral(s[0]) then 0 else 1 + NumeralRun(s[1..])
  }

  /** A run of numerals followed by anything that starts with another character
      is recognised as exactly that run. */
  lemma {:induction false} NumeralRunOf(x: string, rest: string)
    requires forall k | 0 <= k < |x| :: IsNumeral(x[k])
    requires rest != [] && !IsNumeral(rest[0])
    ensures NumeralRun(x + rest) == |x|
  {
    if x == [] {
      assert x + rest == rest;
    } else {
      assert (x + rest)[1..] == x[1..] + rest;
      NumeralRunOf(x[1..], rest);
    }
  }

  /** Python's `int(x)` on a finite float: truncation toward zero. */
  function Trunc(x: real): (n: int)
    ensures 0.0 <= x ==> n as real <= x < n as real + 1.0
    ensures x < 0.0 ==> n as real - 1.0 < x <= n as real
  {
    if x >= 0.0 then x.Floor else -((-x).Floor)
  }

  /** `sep` occurs in `s` starting at index `i`. */
  predicate OccursAt(s: string, sep: string, i: nat)
  {
    i + |sep| <= |s| && s[i..i + |sep|] == sep
  }

  predicate Contains(s: string, sep: string)
  {
    exists i: nat | i <= |s| :: OccursAt(s, sep, i)
  }

  /** `s.split(sep)[0]`: the text of `s` before the first occurrence of `sep`,
      or all of `s` when `sep` does not occur. Python refuses an empty separator. */
  function SplitHead(s: string, sep: string): (r: string)
    requires sep != []
    ensures |r| <= |s| && r == s[..|r|]
    ensures forall i: nat | i < |r| :: !OccursAt(s, sep, i)
    ensures |r| < |s| ==> OccursAt(s, sep, |r|)
    decreases |s|
  {
    if |s| < |sep| then s
    else if s[..|sep|] == sep then []
    else
      OccursAtShift(s, sep);
      [s[0]] + SplitHead(s[1..], sep)
  }

  /** Occurrences in `s[1..]` are the occurrences in `s` shifted by one. */
  lemma OccursAtShift(s: string, sep: string)
    requires s != []
    ensures forall i: nat | 1 <= i :: OccursAt(s, sep, i) == OccursAt(s[1..], sep, i - 1)
  {
    forall i: nat | 1 <= i
      ensures OccursAt(s, sep, i) == OccursAt(s[1..], sep, i - 1)
    {
      if i + |sep| <= |s| {
        assert s[1..][i - 1..i - 1 + |sep|] == s[i..i + |sep|];
      }
    }
  }

  /** When the first occurrence of `sep` in `s` is at `k`, the split head is `s[..k]`. */
  lemma SplitHeadAt(s: string, sep: string, k: nat)
    requires sep != []
    requires OccursAt(s, sep, k)
    requires forall i: nat | i < k :: !OccursAt(s, sep, i)
    ensures SplitHead(s, sep) == s[..k]
  {
  }
}
