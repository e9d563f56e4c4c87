/**
 Unicode text as Python holds it (code points, surrogates included) and the two encodings the
 canonical form depends on: UTF-16BE for member order, UTF-8 for the signed bytes.
 */
module Utf {

  type CodePoint = c: int | 0 <= c < 0x110000

  type Text = seq<CodePoint>

  predicate Scalar(c: CodePoint) {
    !(0xD800 <= c < 0xE000)
  }

  predicate AllScalar(t: Text) {
    forall i :: 0 <= i < |t| ==> Scalar(t[i])
  }

  function Char(c: CodePoint): (r: char)
    requires Scalar(c)
    ensures r as int == c
  {
    c as char
  }

  // UTF-16

  function Units(c: CodePoint): (u: seq<int>)
    ensures 1 <= |u| <= 2 && forall i :: 0 <= i < |u| ==> 0 <= u[i] < 0x10000
  {
    if c < 0x10000 then [c]
    else [0xD800 + (c - 0x10000) / 0x400, 0xDC00 + (c - 0x10000) % 0x400]
  }

  function Utf16(t: Text): (u: seq<int>)
    ensures forall i :: 0 <= i < |u| ==> 0 <= u[i] < 0x10000
  {
    if t == [] then [] else Units(t[0]) + Utf16(t[1..])
  }

  function BigEndian(u: seq<int>): seq<int> {
    if u == [] then [] else [u[0] / 256, u[0] % 256] + BigEndian(u[1..])
  }

  function Utf16Be(t: Text): seq<int> {
    BigEndian(Utf16(t))
  }

  /** Lexicographic order, shorter first. */
  predicate LexLess(a: seq<int>, b: seq<int>) {
    b != [] && (a == [] || a[0] < b[0] || (a[0] == b[0] && LexLess(a[1..], b[1..])))
  }

  lemma {:induction false} LexTotal(a: seq<int>, b: seq<int>)
    ensures LexLess(a, b) || a == b || LexLess(b, a)
  {
    if a != [] && b != [] && a[0] == b[0] {
      LexTotal(a[1..], b[1..]);
      if a[1..] == b[1..] {
        assert a == [a[0]] + a[1..] && b == [b[0]] + b[1..];
      }
    }
  }

  lemma {:induction false} LexAsymmetric(a: seq<int>, b: seq<int>)
    requires LexLess(a, b)
    ensures !LexLess(b, a) && a != b
  {
    if a != [] && a[0] == b[0] {
      LexAsymmetric(a[1..], b[1..]);
    }
  }

  lemma {:induction false} LexTransitive(a: seq<int>, b: seq<int>, c: seq<int>)
    requires LexLess(a, b) && LexLess(b, c)
    ensures LexLess(a, c)
  {
    if a != [] && a[0] == b[0] == c[0] {
      LexTransitive(a[1..], b[1..], c[1..]);
    }
  }

  /** Comparing big-endian bytes is comparing code units. */
  lemma {:induction false} ByteOrderIsUnitOrder(a: seq<int>, b: seq<int>)
    requires forall i :: 0 <= i < |a| ==> 0 <= a[i] < 0x10000
    requires forall i :: 0 <= i < |b| ==> 0 <= b[i] < 0x10000
    ensures LexLess(BigEndian(a), BigEndian(b)) <==> LexLess(a, b)
  {
    if a != [] && b != [] {
      var x, y := BigEndian(a), BigEndian(b);
      var m, n := a[0], b[0];
      assert m == 256 * (m / 256) + m % 256 && n == 256 * (n / 256) + n % 256;
      assert x[1..] == [m % 256] + BigEndian(a[1..]) && y[1..] == [n % 256] + BigEndian(b[1..]);
      assert x[1..][1..] == BigEndian(a[1..]) && y[1..][1..] == BigEndian(b[1..]);
      ByteOrderIsUnitOrder(a[1..], b[1..]);
      assert LexLess(x, y) <==> m / 256 < n / 256 || (m / 256 == n / 256 && LexLess(x[1..], y[1..]));
    }
  }

  lemma {:induction false} BigEndianInjective(a: seq<int>, b: seq<int>)
    requires BigEndian(a) == BigEndian(b)
    ensures a == b
  {
    if a != [] && b != [] {
      var x, y := BigEndian(a), BigEndian(b);
      assert x[0] == y[0] && x[1] == y[1];
      assert x[2..] == BigEndian(a[1..]) && y[2..] == BigEndian(b[1..]);
      BigEndianInjective(a[1..], b[1..]);
      assert a == [a[0]] + a[1..] && b == [b[0]] + b[1..];
    }
  }

  lemma UnitsPrefixFree(c: CodePoint, d: CodePoint, p: seq<int>, q: seq<int>)
    requires Scalar(c) && Scalar(d)
    requires Units(c) + p == Units(d) + q
    ensures c == d && p == q
  {
    var s := Units(c) + p;
    assert s[0] == Units(c)[0] == Units(d)[0];
    if c >= 0x10000 && d >= 0x10000 {
      assert s[1] == Units(c)[1] == Units(d)[1];
      assert (c - 0x10000) == 0x400 * ((c - 0x10000) / 0x400) + (c - 0x10000) % 0x400;
      assert (d - 0x10000) == 0x400 * ((d - 0x10000) / 0x400) + (d - 0x10000) % 0x400;
    }
    assert p == s[|Units(c)|..] && q == s[|Units(d)|..];
  }

  lemma {:induction false} Utf16Injective(a: Text, b: Text)
    requires AllScalar(a) && AllScalar(b)
    requires Utf16(a) == Utf16(b)
    ensures a == b
  {
    if a != [] && b != [] {
      UnitsPrefixFree(a[0], b[0], Utf16(a[1..]), Utf16(b[1..]));
      Utf16Injective(a[1..], b[1..]);
      assert a == [a[0]] + a[1..] && b == [b[0]] + b[1..];
    }
  }

  // UTF-8

  function Utf8Char(c: char): (b: seq<int>)
    ensures 1 <= |b| <= 4
    ensures forall i :: 0 <= i < |b| ==> 0 <= b[i] < 256
  {
    var n := c as int;
    if n < 0x80 then [n]
    else if n < 0x800 then [0xC0 + n / 0x40, 0x80 + n % 0x40]
    else if n < 0x10000 then [0xE0 + n / 0x1000, 0x80 + n / 0x40 % 0x40, 0x80 + n % 0x40]
    else [0xF0 + n / 0x40000, 0x80 + n / 0x1000 % 0x40, 0x80 + n / 0x40 % 0x40, 0x80 + n % 0x40]
  }

  function Utf8(s: string): seq<int> {
    if s == [] then [] else Utf8Char(s[0]) + Utf8(s[1..])
  }

  lemma Utf8CharLead(c: char)
    ensures var b := Utf8Char(c)[0];
            && (c as int < 0x80 <==> b < 0xC0)
            && (0x80 <= c as int < 0x800 <==> 0xC0 <= b < 0xE0)
            && (0x800 <= c as int < 0x10000 <==> 0xE0 <= b < 0xF0)
  {
  }

  function Utf8Value(b: seq<int>): int
    requires 1 <= |b| <= 4
  {
    match |b|
    case 1 => b[0]
    case 2 => (b[0] - 0xC0) * 0x40 + b[1] - 0x80
    case 3 => (b[0] - 0xE0) * 0x1000 + (b[1] - 0x80) * 0x40 + b[2] - 0x80
    case _ => (b[0] - 0xF0) * 0x40000 + (b[1] - 0x80) * 0x1000 + (b[2] - 0x80) * 0x40 + b[3] - 0x80
  }

  lemma Utf8CharValue(c: char)
    ensures Utf8Value(Utf8Char(c)) == c as int
  {
    var n := c as int;
    assert n == n / 0x40 * 0x40 + n % 0x40;
    assert n / 0x40 == n / 0x40 / 0x40 * 0x40 + n / 0x40 % 0x40;
    assert n / 0x40 / 0x40 == n / 0x1000;
    assert n / 0x1000 == n / 0x1000 / 0x40 * 0x40 + n / 0x1000 % 0x40;
    assert n / 0x1000 / 0x40 == n / 0x40000;
  }

  lemma Utf8PrefixFree(c: char, d: char, p: seq<int>, q: seq<int>)
    requires Utf8Char(c) + p == Utf8Char(d) + q
    ensures c == d && p == q
  {
    var s := Utf8Char(c) + p;
    assert s[0] == Utf8Char(c)[0] == Utf8Char(d)[0];
    Utf8CharLead(c);
    Utf8CharLead(d);
    assert |Utf8Char(c)| == |Utf8Char(d)|;
    assert Utf8Char(c) == s[..|Utf8Char(c)|] == Utf8Char(d);
    Utf8CharValue(c);
    Utf8CharValue(d);
    assert p == s[|Utf8Char(c)|..] && q == s[|Utf8Char(d)|..];
  }

  lemma {:induction false} Utf8Injective(a: string, b: string)
    requires Utf8(a) == Utf8(b)
    ensures a == b
  {
    if a != [] && b != [] {
      Utf8PrefixFree(a[0], b[0], Utf8(a[1..]), Utf8(b[1..]));
      Utf8Injective(a[1..], b[1..]);
      assert a == [a[0]] + a[1..] && b == [b[0]] + b[1..];
    }
  }
}
