/**
 * Decimal rendering of integers, as JavaScript's String(n) writes an
 * integer-valued number below 1e21 in magnitude (plain digits, a leading '-'
 * for negatives), and its inverse. The script stores numbers in localStorage and builds event ids this
 * way.
 */
module Text {

  predicate IsDigit(c: char) {
    '0' <= c <= '9'
  }

  predicate AllDigits(s: string) {
    forall i :: 0 <= i < |s| ==> IsDigit(s[i])
  }

  function DigitValue(c: char): (d: nat)
    requires IsDigit(c)
    ensures d < 10
  {
    c as int - '0' as int
  }

  function Digit(d: nat): (c: char)
    requires d < 10
    ensures IsDigit(c) && DigitValue(c) == d
  {
    ('0' as int + d) as char
  }

  /** The decimal digits of n, most significant first, without leading zeros. */
  function ShowNat(n: nat): (s: string)
    ensures |s| >= 1 && AllDigits(s)
    ensures |s| > 1 ==> s[0] != '0'
    decreases n
  {
    if n < 10 then [Digit(n)] else ShowNat(n / 10) + [Digit(n % 10)]
  }

  /** Reads a run of decimal digits back as a number. */
  function ParseNat(s: string): nat
    requires AllDigits(s)
    decreases |s|
  {
    if s == [] then 0 else ParseNat(s[..|s| - 1]) * 10 + DigitValue(s[|s| - 1])
  }

  lemma {:induction false} ParseShowNat(n: nat)
    ensures ParseNat(ShowNat(n)) == n
    decreases n
  {
    if n >= 10 {
      var s := ShowNat(n / 10);
      ParseShowNat(n / 10);
      var t := s + [Digit(n % 10)];
      assert ShowNat(n) == t;
      assert t[..|t| - 1] == s;
    }
  }

  /** String(n) for an integer-valued number n. */
  function ShowInt(n: int): (s: string)
    ensures |s| >= 1
    ensures n >= 0 <==> AllDigits(s)
  {
    if n < 0 then
      var s := "-" + ShowNat(-n);
      assert !IsDigit(s[0]);
      s
    else
      ShowNat(n)
  }

  /** Different integers are stored as different strings. */
  lemma ShowIntInjective(a: int, b: int)
    requires ShowInt(a) == ShowInt(b)
    ensures a == b
  {
    if a >= 0 && b >= 0 {
      ParseShowNat(a);
      ParseShowNat(b);
    } else if a < 0 && b < 0 {
      assert ShowNat(-a) == ShowInt(a)[1..];
      assert ShowNat(-b) == ShowInt(b)[1..];
      ParseShowNat(-a);
      ParseShowNat(-b);
    }
  }
}
