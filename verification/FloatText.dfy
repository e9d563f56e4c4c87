/**
 Canonical text of a finite float, from the shortest decimal its repr prints
 (section 3.2.2.3 of RFC 8785).
 */
module FloatText {
  import opened Basics
  import opened Decimal

  /** `repr` of a positive float: plain `whole.fraction`, or `lead[.fraction]e<exponent>`. */
  datatype Repr =
    | Positional(whole: string, fraction: string)
    | Scientific(lead: char, fraction: string, exponent: int)

  predicate ValidRepr(r: Repr) {
    match r
    case Positional(w, f) => w != [] && f != [] && AllDigits(w) && AllDigits(f)
    case Scientific(l, f, _) => IsDigit(l) && l != '0' && AllDigits(f)
  }

  datatype Float = NonFinite | Zero | Finite(negative: bool, repr: Repr)

  datatype FloatError = NonFiniteForbidden

  function Pow10(e: int): (p: real)
    ensures p > 0.0
    decreases if e < 0 then -e else e
  {
    if e == 0 then 1.0 else if e > 0 then 10.0 * Pow10(e - 1) else Pow10(e + 1) / 10.0
  }

  function Scale(n: nat, e: int): real {
    n as real * Pow10(e)
  }

  /** The decimal that the printed digits and exponent denote. */
  function Denoted(r: Repr): real
    requires ValidRepr(r)
  {
    match r
    case Positional(w, f) => Scale(ReadNat(w + f), -|f|)
    case Scientific(l, f, e) => Scale(ReadNat([l] + f), e - |f|)
  }

  function StripZeros(s: string): (t: string)
    requires AllDigits(s)
    ensures AllDigits(t) && |t| <= |s| && t == s[..|t|]
    ensures s != [] && s[0] != '0' ==> t != [] && t[0] == s[0]
  {
    if s != [] && s[|s| - 1] == '0' then StripZeros(s[..|s| - 1]) else s
  }

  function Mantissa(digits: string): string
    requires digits != []
  {
    if |digits| == 1 then digits else [digits[0]] + "." + digits[1..]
  }

  function RenderScientific(digits: string, exponent: int, plain: bool): string
    requires digits != []
  {
    var position := 1 + exponent;
    if plain then
      if position <= 0 then "0." + Zeros(-position) + digits
      else if position >= |digits| then digits + Zeros(position - |digits|)
      else digits[..position] + "." + digits[position..]
    else
      Mantissa(digits) + "e" + SignedExponent(exponent)
  }

  function Render(r: Repr): string
    requires ValidRepr(r)
  {
    match r
    case Positional(w, f) => if f == "0" then w else w + "." + f
    case Scientific(l, f, e) =>
      RenderScientific(StripZeros([l] + f), e, Pow10(-6) <= Denoted(r) < Pow10(21))
  }

  function CanonicalFloat(v: Float): Result<string, FloatError>
    requires v.Finite? ==> ValidRepr(v.repr)
  {
    match v
    case NonFinite => Err(NonFiniteForbidden)
    case Zero => Ok("0")
    case Finite(negative, r) => Ok((if negative then "-" else "") + Render(r))
  }

  // Reading a number back, by the grammar of a JSON number.

  /** Position of the first `c` in `s`, or the length of `s`. */
  function Find(s: string, c: char): (n: nat)
    ensures n <= |s|
    ensures n < |s| ==> s[n] == c
    ensures forall i :: 0 <= i < n ==> s[i] != c
  {
    if s == [] || s[0] == c then 0 else 1 + Find(s[1..], c)
  }

  lemma {:induction false} FindIs(a: string, c: char, b: string)
    requires forall i :: 0 <= i < |a| ==> a[i] != c
    ensures Find(a + [c] + b, c) == |a|
  {
    var s := a + [c] + b;
    if a != [] {
      FindIs(a[1..], c, b);
      assert s[1..] == a[1..] + [c] + b;
    }
  }

  lemma {:induction false} FindNone(s: string, c: char)
    requires forall i :: 0 <= i < |s| ==> s[i] != c
    ensures Find(s, c) == |s|
  {
    if s != [] {
      FindNone(s[1..], c);
    }
  }

  /** Value of `digits[.digits]` scaled by a power of ten. */
  function ReadMantissa(s: string, e: int): Option<real> {
    var n := Find(s, '.');
    var whole, fraction := s[..n], if n < |s| then s[n + 1..] else "";
    if whole != [] && AllDigits(whole) && AllDigits(fraction) && (n == |s| || fraction != [])
    then Some(Scale(ReadNat(whole + fraction), e - |fraction|)) else None
  }

  function ReadExponent(s: string): Option<int> {
    var t := if s != [] && s[0] == '+' then s[1..] else s;
    if t != [] && AllDigits(if t[0] == '-' then t[1..] else t) then Some(ReadInt(t)) else None
  }

  function ReadUnsigned(s: string): Option<real> {
    var n := Find(s, 'e');
    if n == |s| then ReadMantissa(s, 0)
    else
      match ReadExponent(s[n + 1..])
      case Some(e) => ReadMantissa(s[..n], e)
      case None => None
  }

  function ReadNumber(s: string): Option<real> {
    if s != [] && s[0] == '-' then
      match ReadUnsigned(s[1..]) case Some(v) => Some(-v) case None => None
    else ReadUnsigned(s)
  }

  lemma DigitsAreNot(s: string, c: char)
    requires AllDigits(s) && !IsDigit(c)
    ensures forall i :: 0 <= i < |s| ==> s[i] != c
  {
  }

  lemma ReadWhole(whole: string, e: int)
    requires whole != [] && AllDigits(whole)
    ensures ReadMantissa(whole, e) == Some(Scale(ReadNat(whole), e))
  {
    hide ReadNat, Scale, Find;
    DigitsAreNot(whole, '.');
    FindNone(whole, '.');
    assert whole + "" == whole;
  }

  lemma ReadPointed(whole: string, fraction: string, e: int)
    requires whole != [] && fraction != [] && AllDigits(whole) && AllDigits(fraction)
    ensures ReadMantissa(whole + "." + fraction, e) == Some(Scale(ReadNat(whole + fraction), e - |fraction|))
  {
    hide ReadNat, Scale, Find;
    DigitsAreNot(whole, '.');
    FindIs(whole, '.', fraction);
    var s := whole + "." + fraction;
    assert s[..|whole|] == whole && s[|whole| + 1..] == fraction;
  }

  lemma ReadPlain(s: string)
    requires forall i :: 0 <= i < |s| ==> s[i] != 'e'
    ensures ReadUnsigned(s) == ReadMantissa(s, 0)
  {
    FindNone(s, 'e');
  }

  function SignedExponent(exponent: int): string {
    (if exponent >= 0 then "+" else "") + IntText(exponent)
  }

  lemma ReadSignedExponent(exponent: int)
    ensures ReadExponent(SignedExponent(exponent)) == Some(exponent)
  {
    hide NatText, ReadNat;
    ReadIntText(exponent);
    if exponent >= 0 {
      assert SignedExponent(exponent)[1..] == IntText(exponent);
    } else {
      assert SignedExponent(exponent) == IntText(exponent);
    }
  }

  lemma ReadScientific(mantissa: string, exponent: int)
    requires forall i :: 0 <= i < |mantissa| ==> mantissa[i] != 'e'
    ensures ReadUnsigned(mantissa + "e" + SignedExponent(exponent)) == ReadMantissa(mantissa, exponent)
  {
    hide ReadMantissa, ReadExponent, SignedExponent, Find;
    var tail := SignedExponent(exponent);
    var s := mantissa + "e" + tail;
    FindIs(mantissa, 'e', tail);
    assert s[..|mantissa|] == mantissa && s[|mantissa| + 1..] == tail;
    ReadSignedExponent(exponent);
  }

  lemma ScaleTen(n: nat, e: int)
    ensures Scale(10 * n, e - 1) == Scale(n, e)
  {
    assert Pow10(e) == 10.0 * Pow10(e - 1);
  }

  lemma OneMoreZero(s: string)
    requires AllDigits(s)
    ensures AllDigits(s + "0") && ReadNat(s + "0") == 10 * ReadNat(s)
  {
    assert (s + "0")[..|s|] == s;
  }

  /** Appending zeros to the digits is paid back by the power of ten. */
  lemma {:induction false} AppendZeros(s: string, z: nat, e: int)
    requires AllDigits(s)
    ensures AllDigits(s + Zeros(z)) && Scale(ReadNat(s + Zeros(z)), e) == Scale(ReadNat(s), e + z)
  {
    hide Scale, Pow10;
    if z == 0 {
      assert s + Zeros(0) == s;
    } else {
      AppendZeros(s, z - 1, e + 1);
      OneMoreZero(s + Zeros(z - 1));
      assert s + Zeros(z) == s + Zeros(z - 1) + "0";
      ScaleTen(ReadNat(s + Zeros(z - 1)), e + 1);
    }
  }

  lemma {:induction false} StrippedZeros(s: string)
    requires AllDigits(s)
    ensures s == StripZeros(s) + Zeros(|s| - |StripZeros(s)|)
  {
    if s != [] && s[|s| - 1] == '0' {
      StrippedZeros(s[..|s| - 1]);
    }
  }

  lemma StrippedDenotes(l: char, f: string, e: int)
    requires IsDigit(l) && AllDigits(f)
    ensures var d := StripZeros([l] + f); Scale(ReadNat([l] + f), e - |f|) == Scale(ReadNat(d), e + 1 - |d|)
  {
    var d := StripZeros([l] + f);
    StrippedZeros([l] + f);
    AppendZeros(d, |f| + 1 - |d|, e - |f|);
  }

  lemma MantissaDenotes(digits: string, e: int)
    requires digits != [] && AllDigits(digits)
    ensures forall i :: 0 <= i < |Mantissa(digits)| ==> Mantissa(digits)[i] != 'e'
    ensures ReadMantissa(Mantissa(digits), e) == Some(Scale(ReadNat(digits), e + 1 - |digits|))
  {
    hide ReadMantissa, Scale, ReadNat;
    if |digits| == 1 {
      ReadWhole(digits, e);
    } else {
      ReadPointed([digits[0]], digits[1..], e);
      assert [digits[0]] + digits[1..] == digits;
    }
  }

  lemma ExponentFormDenotes(digits: string, exponent: int)
    requires digits != [] && AllDigits(digits)
    ensures ReadUnsigned(RenderScientific(digits, exponent, false)) == Some(Scale(ReadNat(digits), exponent + 1 - |digits|))
  {
    hide ReadMantissa, ReadUnsigned, Scale, ReadNat, SignedExponent, Mantissa;
    MantissaDenotes(digits, exponent);
    ReadScientific(Mantissa(digits), exponent);
  }

  lemma FractionFormDenotes(digits: string, exponent: int)
    requires digits != [] && AllDigits(digits) && exponent < 0
    ensures ReadUnsigned(RenderScientific(digits, exponent, true)) == Some(Scale(ReadNat(digits), exponent + 1 - |digits|))
  {
    hide ReadMantissa, ReadUnsigned, Scale, ReadNat;
    var fraction := Zeros(-1 - exponent) + digits;
    assert RenderScientific(digits, exponent, true) == "0" + "." + fraction;
    DigitsAreNot(fraction, 'e');
    ReadPlain("0" + "." + fraction);
    ReadPointed("0", fraction, 0);
    assert "0" + fraction == Zeros(0 - exponent) + digits;
    ReadLeadingZeros(0 - exponent, digits);
  }

  lemma IntegerFormDenotes(digits: string, exponent: int)
    requires digits != [] && AllDigits(digits) && 1 + exponent >= |digits|
    ensures ReadUnsigned(RenderScientific(digits, exponent, true)) == Some(Scale(ReadNat(digits), exponent + 1 - |digits|))
  {
    hide ReadMantissa, ReadUnsigned, Scale, ReadNat;
    var text := digits + Zeros(1 + exponent - |digits|);
    DigitsAreNot(text, 'e');
    ReadPlain(text);
    ReadWhole(text, 0);
    AppendZeros(digits, 1 + exponent - |digits|, 0);
  }

  lemma PointFormDenotes(digits: string, exponent: int)
    requires AllDigits(digits) && 0 < 1 + exponent < |digits|
    ensures ReadUnsigned(RenderScientific(digits, exponent, true)) == Some(Scale(ReadNat(digits), exponent + 1 - |digits|))
  {
    hide ReadMantissa, ReadUnsigned, Scale, ReadNat;
    var whole, fraction := digits[..1 + exponent], digits[1 + exponent..];
    DigitsAreNot(digits, 'e');
    ReadPlain(whole + "." + fraction);
    ReadPointed(whole, fraction, 0);
    assert whole + fraction == digits;
  }

  /** Whichever layout is chosen for the digits, the text reads back as the decimal they denote. */
  lemma RenderScientificDenotes(digits: string, exponent: int, plain: bool)
    requires digits != [] && AllDigits(digits)
    ensures ReadUnsigned(RenderScientific(digits, exponent, plain)) == Some(Scale(ReadNat(digits), exponent + 1 - |digits|))
  {
    hide ReadUnsigned, RenderScientific, Scale, ReadNat;
    if !plain {
      ExponentFormDenotes(digits, exponent);
    } else if exponent < 0 {
      FractionFormDenotes(digits, exponent);
    } else if 1 + exponent >= |digits| {
      IntegerFormDenotes(digits, exponent);
    } else {
      PointFormDenotes(digits, exponent);
    }
  }

  lemma RenderDenotes(r: Repr)
    requires ValidRepr(r)
    ensures ReadUnsigned(Render(r)) == Some(Denoted(r))
  {
    hide ReadMantissa, ReadUnsigned, RenderScientific, Scale, ReadNat, Pow10, StripZeros;
    match r
    case Positional(w, f) =>
      DigitsAreNot(w, 'e');
      DigitsAreNot(f, 'e');
      ReadPlain(Render(r));
      if f == "0" {
        ReadWhole(w, 0);
        AppendZeros(w, 1, -1);
        assert Zeros(1) == "0";
      } else {
        ReadPointed(w, f, 0);
      }
    case Scientific(l, f, e) =>
      StrippedDenotes(l, f, e);
      RenderScientificDenotes(StripZeros([l] + f), e, Pow10(-6) <= Denoted(r) < Pow10(21));
  }

  lemma RenderIsUnsigned(r: Repr)
    requires ValidRepr(r)
    ensures Render(r) != [] && Render(r)[0] != '-'
  {
    hide Denoted, Pow10, StripZeros, SignedExponent;
    if r.Scientific? {
      var d := StripZeros([r.lead] + r.fraction);
      assert IsDigit(d[0]);
      if 0 < 1 + r.exponent < |d| {
        assert d[..1 + r.exponent][0] == d[0];
      }
    }
  }

  lemma ZeroReads()
    ensures ReadUnsigned("0") == Some(0.0)
  {
    hide ReadMantissa, ReadUnsigned;
    ReadPlain("0");
    ReadWhole("0", 0);
    assert "0"[..0] == [];
    assert ReadNat("0") == 0;
  }

  /** Canonical float text denotes exactly the signed decimal that the repr denotes, in every branch. */
  lemma CanonicalFloatDenotes(v: Float)
    requires v.Finite? ==> ValidRepr(v.repr)
    ensures v.NonFinite? <==> CanonicalFloat(v).Err?
    ensures v.Zero? ==> ReadNumber(CanonicalFloat(v).value) == Some(0.0)
    ensures v.Finite? ==>
              ReadNumber(CanonicalFloat(v).value) == Some(if v.negative then -Denoted(v.repr) else Denoted(v.repr))
  {
    hide ReadUnsigned, Render, Denoted;
    match v
    case NonFinite =>
    case Zero =>
      ZeroReads();
    case Finite(negative, r) =>
      RenderDenotes(r);
      RenderIsUnsigned(r);
      var text := (if negative then "-" else "") + Render(r);
      assert text[if negative then 1 else 0..] == Render(r);
  }

  lemma {:induction false} Pow10Increases(a: int, b: int)
    requires a <= b
    ensures Pow10(a) <= Pow10(b)
    decreases b - a
  {
    if a < b {
      Pow10Increases(a, b - 1);
      assert Pow10(b) == 10.0 * Pow10(b - 1);
    }
  }

  function Units(z: nat): (n: nat)
    ensures n > 0
  {
    if z == 0 then 1 else 10 * Units(z - 1)
  }

  lemma {:induction false} DigitsBound(l: char, f: string)
    requires IsDigit(l) && l != '0' && AllDigits(f)
    ensures Units(|f|) <= ReadNat([l] + f) < Units(|f| + 1)
  {
    var s := [l] + f;
    if f == [] {
      assert s[..0] == [];
    } else {
      assert s[..|s| - 1] == [l] + f[..|f| - 1] && s[|s| - 1] == f[|f| - 1];
      DigitsBound(l, f[..|f| - 1]);
    }
  }

  lemma {:induction false} Pow10Whole(k: int, z: nat)
    ensures Pow10(k + z) == Scale(Units(z), k)
    decreases z
  {
    hide Pow10;
    if z > 0 {
      Pow10Whole(k + 1, z - 1);
      ScaleTen(Units(z - 1), k + 1);
    }
  }

  lemma ScaleIncreases(a: nat, b: nat, k: int)
    requires a <= b
    ensures Scale(a, k) <= Scale(b, k)
    ensures a < b ==> Scale(a, k) < Scale(b, k)
  {
    hide Pow10;
    var p := Pow10(k);
    assert (b - a) as real * p >= 0.0;
    assert b as real * p == a as real * p + (b - a) as real * p;
  }

  /** The exponent form is used exactly outside 1e-6 up to 1e21, that is, by the printed exponent. */
  lemma PlainRangeIsByExponent(l: char, f: string, e: int)
    requires IsDigit(l) && l != '0' && AllDigits(f)
    ensures Pow10(-6) <= Denoted(Scientific(l, f, e)) < Pow10(21) <==> -6 <= e <= 20
  {
    hide Scale, Pow10, Units, ReadNat;
    var k := e - |f|;
    DigitsBound(l, f);
    Pow10Whole(k, |f|);
    Pow10Whole(k, |f| + 1);
    ScaleIncreases(Units(|f|), ReadNat([l] + f), k);
    ScaleIncreases(ReadNat([l] + f), Units(|f| + 1), k);
    assert Pow10(e) <= Denoted(Scientific(l, f, e)) < Pow10(e + 1);
    if e < -6 {
      Pow10Increases(e + 1, -6);
    } else {
      Pow10Increases(-6, e);
    }
    if e > 20 {
      Pow10Increases(21, e);
    } else {
      Pow10Increases(e + 1, 21);
    }
  }
}
