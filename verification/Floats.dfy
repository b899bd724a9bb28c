/** The values of 32-bit floating point patterns (the binary32 format of IEEE 754), scaled by 2^149 to whole numbers. */
module Floats {
  import opened Bytes

  function TwoTo(n: nat): (r: nat)
    ensures r > 0
  {
    if n == 0 then 1 else 2 * TwoTo(n - 1)
  }

  function Exponent(c: u32): nat { c % 0x8000_0000 / 0x80_0000 }

  function Fraction(c: u32): nat { c % 0x80_0000 }

  predicate Negative(c: u32) { c >= 0x8000_0000 }

  predicate NotANumber(c: u32) { Exponent(c) == 255 && Fraction(c) != 0 }

  /** Subnormal numbers have exponent field 0 and no hidden bit; infinity lies above every finite number. */
  function Magnitude(c: u32): nat {
    if Exponent(c) == 0 then Fraction(c) else (0x80_0000 + Fraction(c)) * TwoTo(Exponent(c) - 1)
  }

  function ValueOf(c: u32): int { if Negative(c) then 0 - Magnitude(c) else Magnitude(c) }

  lemma {:induction false} TwoToGrows(m: nat, n: nat)
    requires m <= n
    ensures TwoTo(m) <= TwoTo(n)
  {
    if m < n { TwoToGrows(m, n - 1); }
  }

  lemma Scaled(f: nat, t: nat)
    requires f < 0x80_0000 && t > 0
    ensures 0x80_0000 * t <= (0x80_0000 + f) * t < 0x100_0000 * t
  {}

  /** The numbers with one exponent lie between those with a smaller and those with a larger one. */
  lemma MagnitudeRange(c: u32)
    ensures Magnitude(c) < 0x80_0000 * TwoTo(Exponent(c))
    ensures Exponent(c) > 0 ==> Magnitude(c) >= 0x80_0000 * TwoTo(Exponent(c) - 1)
  {
    var e, f := Exponent(c), Fraction(c);
    assert f < 0x80_0000;
    hide Exponent, Fraction;
    if e > 0 {
      Scaled(f, TwoTo(e - 1));
      assert TwoTo(e) == 2 * TwoTo(e - 1);
    } else {
      assert TwoTo(0) == 1;
    }
  }

  lemma SmallerExponent(a: u32, b: u32)
    requires Exponent(a) < Exponent(b)
    ensures Magnitude(a) < Magnitude(b)
  {
    MagnitudeRange(a);
    MagnitudeRange(b);
    TwoToGrows(Exponent(a), Exponent(b) - 1);
  }

  lemma SameExponent(a: u32, b: u32)
    requires Exponent(a) == Exponent(b) && Magnitude(a) == Magnitude(b)
    ensures Fraction(a) == Fraction(b)
  {
    if Exponent(a) > 0 {
      var t := TwoTo(Exponent(a) - 1);
      CancelFactor(0x80_0000 + Fraction(a), 0x80_0000 + Fraction(b), t);
    }
  }

  lemma CancelFactor(x: nat, y: nat, t: nat)
    requires t > 0 && x * t == y * t
    ensures x == y
  {
    assert (x - y) * t == 0;
  }

  lemma PatternParts(c: u32)
    ensures c % 0x8000_0000 == 0x80_0000 * Exponent(c) + Fraction(c)
  {}

  /** Two patterns have one magnitude exactly when they agree apart from the sign bit. */
  lemma MagnitudeExactly(a: u32, b: u32)
    ensures Magnitude(a) == Magnitude(b) <==> a % 0x8000_0000 == b % 0x8000_0000
  {
    PatternParts(a);
    PatternParts(b);
    if Magnitude(a) == Magnitude(b) {
      if Exponent(a) < Exponent(b) { SmallerExponent(a, b); }
      if Exponent(b) < Exponent(a) { SmallerExponent(b, a); }
      SameExponent(a, b);
    }
  }

  lemma ZeroMagnitude(c: u32)
    ensures Magnitude(c) == 0 <==> c % 0x8000_0000 == 0
  {
    MagnitudeExactly(c, 0);
    assert Magnitude(0) == 0;
  }

  lemma NotANumberExactly(c: u32)
    ensures NotANumber(c) <==> c % 0x8000_0000 > 0x7F80_0000
  {
    PatternParts(c);
  }

  /** Two patterns have one value exactly when they are the same or both a zero. */
  lemma {:induction false} ValueExactly(a: u32, b: u32)
    ensures ValueOf(a) == ValueOf(b) <==> a == b || (a % 0x8000_0000 == 0 && b % 0x8000_0000 == 0)
  {
    hide Magnitude;
    MagnitudeExactly(a, b);
    ZeroMagnitude(a);
    ZeroMagnitude(b);
  }
}
