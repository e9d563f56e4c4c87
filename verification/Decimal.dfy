/** Decimal text of natural numbers and integers, and how it is read back. */
module Decimal {

  predicate IsDigit(c: char) {
    '0' <= c <= '9'
  }

  predicate AllDigits(s: string) {
    forall i :: 0 <= i < |s| ==> IsDigit(s[i])
  }

  function DigitValue(c: char): nat
    requires IsDigit(c)
  {
    c as int - '0' as int
  }

  function DigitText(d: nat): (c: char)
    requires d < 10
    ensures IsDigit(c) && DigitValue(c) == d
  {
    ('0' as int + d) as char
  }

  /** The number a digit string denotes. */
  function ReadNat(s: string): nat
    requires AllDigits(s)
  {
    if s == [] then 0 else 10 * ReadNat(s[..|s| - 1]) + DigitValue(s[|s| - 1])
  }

  /** Shortest decimal text. */
  function NatText(n: nat): (s: string)
    ensures s != [] && AllDigits(s)
  {
    if n < 10 then [DigitText(n)] else NatText(n / 10) + [DigitText(n % 10)]
  }

  lemma {:induction false} ReadNatText(n: nat)
    ensures ReadNat(NatText(n)) == n
  {
    if n < 10 {
      assert [DigitText(n)][..0] == [];
    } else {
      ReadNatText(n / 10);
      assert NatText(n)[..|NatText(n)| - 1] == NatText(n / 10);
    }
  }

  function IntText(n: int): string {
    if n < 0 then "-" + NatText(-n) else NatText(n)
  }

  function ReadInt(s: string): int
    requires s != [] && AllDigits(if s[0] == '-' then s[1..] else s)
  {
    if s[0] == '-' then 0 - ReadNat(s[1..]) else ReadNat(s)
  }

  lemma ReadIntText(n: int)
    ensures var s := IntText(n); s != [] && AllDigits(if s[0] == '-' then s[1..] else s) && ReadInt(s) == n
  {
    if n < 0 {
      ReadNatText(-n);
      assert IntText(n)[1..] == NatText(-n);
    } else {
      ReadNatText(n);
    }
  }

  /** How many digits `s` starts with. */
  function DigitRun(s: string): (n: nat)
    ensures n <= |s| && AllDigits(s[..n])
    ensures n < |s| ==> !IsDigit(s[n])
  {
    if s == [] || !IsDigit(s[0]) then 0
    else
      var n := DigitRun(s[1..]);
      assert s[..n + 1] == [s[0]] + s[1..][..n];
      1 + n
  }

  lemma {:induction false} DigitRunIs(digits: string, rest: string)
    requires AllDigits(digits) && (rest == [] || !IsDigit(rest[0]))
    ensures DigitRun(digits + rest) == |digits|
  {
    if digits == [] {
      assert digits + rest == rest;
    } else {
      DigitRunIs(digits[1..], rest);
      assert (digits + rest)[1..] == digits[1..] + rest;
    }
  }

  function Zeros(n: nat): (s: string)
    ensures |s| == n && AllDigits(s)
    ensures forall i :: 0 <= i < n ==> s[i] == '0'
  {
    seq(n, _ => '0')
  }

  lemma {:induction false} ReadLeadingZeros(n: nat, s: string)
    requires AllDigits(s)
    ensures AllDigits(Zeros(n) + s) && ReadNat(Zeros(n) + s) == ReadNat(s)
  {
    if s != [] {
      ReadLeadingZeros(n, s[..|s| - 1]);
      assert (Zeros(n) + s)[..n + |s| - 1] == Zeros(n) + s[..|s| - 1];
    } else if n > 0 {
      ReadLeadingZeros(n - 1, s);
      assert (Zeros(n) + s)[..n - 1] == Zeros(n - 1) + s;
    } else {
      assert Zeros(n) + s == [];
    }
  }
}
