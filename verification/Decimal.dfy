/** Integers as `to_string` writes them. */
module Decimal {

  predicate IsDigit(c: char) { '0' <= c <= '9' }

  function Digit(d: nat): (c: char)
    requires d < 10
    ensures IsDigit(c) && c as int - '0' as int == d
  {
    ('0' as int + d) as char
  }

  function DigitValue(c: char): nat
    requires IsDigit(c)
  {
    c as int - '0' as int
  }

  function Unsigned(n: nat): (s: string)
    ensures |s| > 0 && forall i :: 0 <= i < |s| ==> IsDigit(s[i])
  {
    if n < 10 then [Digit(n)] else Unsigned(n / 10) + [Digit(n % 10)]
  }

  function Signed(n: int): (s: string)
    ensures |s| > 0 && forall i :: 0 <= i < |s| ==> IsDigit(s[i]) || (i == 0 && s[i] == '-')
  {
    if n < 0 then "-" + Unsigned(-n) else Unsigned(n)
  }

  function Value(s: string): nat
    requires forall i :: 0 <= i < |s| ==> IsDigit(s[i])
  {
    if s == [] then 0 else Value(s[..|s| - 1]) * 10 + DigitValue(s[|s| - 1])
  }

  lemma {:induction false} ValueOfUnsigned(n: nat)
    ensures Value(Unsigned(n)) == n
  {
    if n < 10 {
      assert Unsigned(n)[..0] == [];
    } else {
      ValueOfUnsigned(n / 10);
      assert Unsigned(n)[..|Unsigned(n)| - 1] == Unsigned(n / 10);
    }
  }

  /** No two numbers are written alike. */
  lemma UnsignedIsInjective(a: nat, b: nat)
    requires Unsigned(a) == Unsigned(b)
    ensures a == b
  {
    ValueOfUnsigned(a);
    ValueOfUnsigned(b);
  }

  function SignedValue(s: string): int
    requires forall i :: 0 <= i < |s| ==> IsDigit(s[i]) || (i == 0 && s[i] == '-')
  {
    if s != "" && s[0] == '-' then -(Value(s[1..]) as int) else Value(s)
  }

  lemma ValueOfSigned(n: int)
    ensures SignedValue(Signed(n)) == n
  {
    if n < 0 {
      assert Signed(n)[1..] == Unsigned(-n);
      ValueOfUnsigned(-n);
    } else {
      assert Signed(n)[0] != '-';
      ValueOfUnsigned(n);
    }
  }
}
