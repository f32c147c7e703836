/**
 * The number/text conversions the page uses: `String(n)` for a
 * non-negative integer, `padStart(2, '0')`, and `parseInt` on a string
 * that starts with its digits.
 */
module Decimal {
  import opened Types

  predicate IsDigit(c: char) {
    '0' <= c <= '9'
  }

  predicate AllDigits(s: string) {
    forall i :: 0 <= i < |s| ==> IsDigit(s[i])
  }

  function DigitChar(d: nat): (c: char)
    requires d < 10
    ensures IsDigit(c) && DigitValue(c) == d
  {
    (48 + d) as char
  }

  function DigitValue(c: char): (d: nat)
    requires IsDigit(c)
    ensures d < 10
  {
    c as int - 48
  }

  /** `String(n)`: decimal digits, no leading zero, "0" for zero. */
  function Show(n: nat): (s: string)
    ensures 1 <= |s| && AllDigits(s)
    ensures |s| == 1 <==> n < 10
    ensures s[0] == '0' <==> n == 0
    decreases n
  {
    if n < 10 then [DigitChar(n)] else Show(n / 10) + [DigitChar(n % 10)]
  }

  /** The value of a string of decimal digits, most significant first. */
  function Value(s: string): (n: nat)
    requires AllDigits(s)
  {
    if s == [] then 0 else Value(s[..|s| - 1]) * 10 + DigitValue(s[|s| - 1])
  }

  /** Reading back what `Show` wrote gives the number again. */
  lemma {:induction false} ValueOfShow(n: nat)
    ensures Value(Show(n)) == n
    decreases n
  {
    if n >= 10 {
      var s := Show(n);
      assert s[..|s| - 1] == Show(n / 10);
      ValueOfShow(n / 10);
    }
  }

  /** The length of the longest run of digits at the start of `s`. */
  function DigitPrefixLength(s: string): (k: nat)
    ensures k <= |s| && AllDigits(s[..k])
    ensures k < |s| ==> !IsDigit(s[k])
  {
    if s == [] || !IsDigit(s[0]) then 0
    else
      var k := 1 + DigitPrefixLength(s[1..]);
      assert s[..k] == [s[0]] + s[1..][..k - 1];
      k
  }

  /**
   * `parseInt(s)` for a string with no leading blank and no sign: the
   * value of the leading digits, or `None` (JavaScript's NaN) when `s`
   * does not start with a digit.
   */
  function ParseLeadingInt(s: string): (r: Option<nat>)
    ensures r.None? <==> (s == [] || !IsDigit(s[0]))
  {
    var k := DigitPrefixLength(s);
    if k == 0 then None else Some(Value(s[..k]))
  }

  /** `parseInt` reads back a number written by `String(n)` followed by a non-digit. */
  lemma ParseShow(n: nat, rest: string)
    requires rest == [] || !IsDigit(rest[0])
    ensures ParseLeadingInt(Show(n) + rest) == Some(n)
  {
    var s := Show(n) + rest;
    DigitRunLength(Show(n), rest);
    assert s[..|Show(n)|] == Show(n);
    ValueOfShow(n);
  }

  lemma {:induction false} DigitRunLength(d: string, rest: string)
    requires AllDigits(d)
    requires rest == [] || !IsDigit(rest[0])
    ensures DigitPrefixLength(d + rest) == |d|
    decreases |d|
  {
    if d != [] {
      assert (d + rest)[1..] == d[1..] + rest;
      DigitRunLength(d[1..], rest);
    }
  }

  /** The prefix of `s` before the first `c`, i.e. `s.split(c)[0]`. */
  function BeforeFirst(s: string, c: char): (r: string)
    ensures r <= s && c !in r
    ensures |r| < |s| ==> s[|r|] == c
  {
    if s == [] then []
    else if s[0] == c then []
    else [s[0]] + BeforeFirst(s[1..], c)
  }

  /**
   * `String(n).padStart(2, '0')`: one '0' in front of a one-digit
   * number, the digits unchanged otherwise; nothing is ever cut off.
   */
  function Pad2(n: nat): (s: string)
    ensures |s| == if n < 10 then 2 else |Show(n)|
    ensures |Show(n)| <= |s| && s[|s| - |Show(n)|..] == Show(n)
    ensures n < 10 ==> s == ['0', DigitChar(n)]
    ensures n < 100 ==> |s| == 2
  {
    assert 10 <= n < 100 ==> |Show(n)| == |Show(n / 10)| + 1;
    if |Show(n)| < 2 then "0" + Show(n) else Show(n)
  }
}
