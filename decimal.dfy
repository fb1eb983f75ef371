/** Decimal rendering of natural numbers, with the parser that inverts it.
    Numbers are exact naturals: a template literal `${n}` prints the same
    digits for every non-negative integer below 10^21 that a JavaScript
    number holds exactly. */
module Decimal {

  predicate IsDigit(c: char)
  {
    '0' <= c <= '9'
  }

  predicate AllDigits(s: string)
  {
    forall i :: 0 <= i < |s| ==> IsDigit(s[i])
  }

  function DigitChar(d: nat): (c: char)
    requires d < 10
    ensures IsDigit(c)
  {
    (48 + d) as char
  }

  function DigitValue(c: char): (d: nat)
    requires IsDigit(c)
    ensures d < 10
  {
    c as int - 48
  }

  /** The shortest decimal numeral of `n`: only digits, never empty, and no
      leading zero unless the number is zero itself. */
  function NatToString(n: nat): (s: string)
    ensures |s| >= 1 && AllDigits(s)
    ensures s[0] == '0' ==> n == 0
    decreases n
  {
    if n < 10 then [DigitChar(n)] else NatToString(n / 10) + [DigitChar(n % 10)]
  }

  /** The value of a string of decimal digits. */
  function ParseDigits(s: string): nat
    requires AllDigits(s)
    decreases |s|
  {
    if s == [] then 0 else 10 * ParseDigits(s[..|s| - 1]) + DigitValue(s[|s| - 1])
  }

  /** Reading back a rendered number gives the number. */
  lemma {:induction false} ParseNatToString(n: nat)
    ensures ParseDigits(NatToString(n)) == n
    decreases n
  {
    if n >= 10 {
      var s := NatToString(n);
      assert s[..|s| - 1] == NatToString(n / 10);
      ParseNatToString(n / 10);
    }
  }

  /** Distinct numbers are rendered as distinct strings. */
  lemma NatToStringInjective(a: nat, b: nat)
    requires NatToString(a) == NatToString(b)
    ensures a == b
  {
    ParseNatToString(a);
    ParseNatToString(b);
  }

  /** A run of digits followed by a non-digit is split off unambiguously:
      the digit runs and the remainders of two equal strings agree. */
  lemma DigitRunUnique(a: string, x: string, b: string, y: string)
    requires AllDigits(a) && AllDigits(b)
    requires |x| > 0 && !IsDigit(x[0]) && |y| > 0 && !IsDigit(y[0])
    requires a + x == b + y
    ensures a == b && x == y
  {
    assert a == (a + x)[..|a|];
    assert b == (b + y)[..|b|];
    assert x == (a + x)[|a|..];
    assert y == (b + y)[|b|..];
  }

  /** Two rendered numbers, each followed by a text that starts with a
      non-digit, can only be equal when both numbers and both texts are. */
  lemma NumberThenTextUnique(m: nat, x: string, n: nat, y: string)
    requires |x| > 0 && !IsDigit(x[0]) && |y| > 0 && !IsDigit(y[0])
    requires NatToString(m) + x == NatToString(n) + y
    ensures m == n && x == y
  {
    DigitRunUnique(NatToString(m), x, NatToString(n), y);
    NatToStringInjective(m, n);
  }
}
