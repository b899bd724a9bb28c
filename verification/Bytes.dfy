/** Bytes, little-endian integers and the C integer conversions the program relies on. */
module Bytes {

  type byte = x: int | 0 <= x < 256
  type u32 = x: int | 0 <= x < 0x1_0000_0000

  function Pow256(k: nat): (r: nat)
    ensures r > 0
  {
    if k == 0 then 1 else 256 * Pow256(k - 1)
  }

  /** The `k` bytes of an unsigned integer as they lie in memory on a little-endian host. */
  function ToLE(n: nat, k: nat): (s: seq<byte>)
    ensures |s| == k
  {
    if k == 0 then [] else [n % 256] + ToLE(n / 256, k - 1)
  }

  function FromLE(s: seq<byte>): (n: nat)
    ensures n < Pow256(|s|)
  {
    if s == [] then 0 else s[0] + 256 * FromLE(s[1..])
  }

  lemma {:induction false} FromToLE(n: nat, k: nat)
    requires n < Pow256(k)
    ensures FromLE(ToLE(n, k)) == n
  {
    if k > 0 {
      FromToLE(n / 256, k - 1);
      assert ToLE(n, k)[1..] == ToLE(n / 256, k - 1);
    }
  }

  lemma {:induction false} ToFromLE(s: seq<byte>)
    ensures ToLE(FromLE(s), |s|) == s
  {
    if s != [] {
      ToFromLE(s[1..]);
      assert FromLE(s) % 256 == s[0] && FromLE(s) / 256 == FromLE(s[1..]);
    }
  }

  /** Byte `i` is the i-th digit to the base 256, the lowest first. */
  lemma {:induction false} ToLEByte(n: nat, k: nat, i: nat)
    requires i < k
    ensures ToLE(n, k)[i] == (n / Pow256(i)) % 256
  {
    if i > 0 {
      ToLEByte(n / 256, k - 1, i - 1);
      DivideTwice(n, Pow256(i - 1));
    } else {
      assert Pow256(0) == 1;
    }
  }

  lemma DivideTwice(n: nat, d: nat)
    requires d > 0
    ensures n / (256 * d) == (n / 256) / d
  {
    var q, r := (n / 256) / d, (n / 256) % d;
    assert n == 256 * (q * d + r) + n % 256 == (256 * d) * q + (256 * r + n % 256);
    assert 0 <= 256 * r + n % 256 < 256 * d;
    DivideIs(n, 256 * d, q, 256 * r + n % 256);
  }

  lemma MultipleBounds(d: nat, e: int)
    ensures e >= 1 ==> d * e >= d
    ensures e <= -1 ==> d * e <= 0 - d
  {}

  lemma DivideIs(n: nat, d: nat, q: nat, r: nat)
    requires d > 0 && n == d * q + r && r < d
    ensures n / d == q
  {
    MultipleBounds(d, n / d - q);
    DivisionParts(n, d);
    assert d * (n / d - q) == d * (n / d) - d * q;
  }

  lemma DivisionParts(n: nat, d: nat)
    requires d > 0
    ensures n == d * (n / d) + n % d && n % d < d
  {}

  lemma WordSizes()
    ensures Pow256(4) == 0x1_0000_0000
    ensures Pow256(8) == 0x1_0000_0000_0000_0000
  {
    assert Pow256(2) == 0x1_0000;
    assert Pow256(4) == 256 * (256 * Pow256(2));
    assert Pow256(6) == 256 * (256 * Pow256(4));
    assert Pow256(8) == 256 * (256 * Pow256(6));
  }

  /** The 64-bit pattern of a `time_t`, and the value such a pattern stands for. */
  function Mod64(t: int): nat { t % 0x1_0000_0000_0000_0000 }

  function Signed64(n: nat): int
    requires n < 0x1_0000_0000_0000_0000
  {
    if n < 0x8000_0000_0000_0000 then n else n - 0x1_0000_0000_0000_0000
  }

  /** Conversion of any integer to a 32-bit `int`, as gcc does it. */
  function Narrow32(t: int): int {
    var n := t % 0x1_0000_0000;
    if n < 0x8000_0000 then n else n - 0x1_0000_0000
  }

  /** `count++` on an `unsigned int`. */
  function Successor32(n: u32): u32 { (n + 1) % 0x1_0000_0000 }

  predicate Fits32(t: int) { -0x8000_0000 <= t < 0x8000_0000 }

  predicate Fits64(t: int) { -0x8000_0000_0000_0000 <= t < 0x8000_0000_0000_0000 }

  lemma Wrap64(t: int)
    ensures Signed64(Mod64(t)) == t <==> Fits64(t)
    ensures Fits64(Signed64(Mod64(t)))
  {}

  /** Narrowing keeps a timestamp exactly when it fits; going through 64 bits first changes nothing. */
  lemma NarrowExact(t: int)
    ensures Fits32(Narrow32(t))
    ensures Narrow32(t) == t <==> Fits32(t)
    ensures Narrow32(Signed64(Mod64(t))) == Narrow32(t)
  {
    var q := t / 0x1_0000_0000_0000_0000;
    assert t == q * 0x1_0000_0000_0000_0000 + Mod64(t);
    var d := if Mod64(t) < 0x8000_0000_0000_0000 then q else q + 1;
    assert t == Signed64(Mod64(t)) + 0x1_0000_0000 * (d * 0x1_0000_0000);
    SameResidue(Signed64(Mod64(t)), t, d * 0x1_0000_0000);
  }

  lemma MultipleIsZero(m: nat, k: int)
    requires m > 0
    ensures (m * k) % m == 0
  {
    var x := m * k;
    assert x == m * (x / m) + x % m && 0 <= x % m < m;
    assert m * (k - x / m) == x % m;
    MultipleBounds(m, k - x / m);
  }

  /** Both conversions keep the value up to a multiple of the modulus, which with their range says what they are. */
  lemma {:induction false} NarrowCongruent(t: int)
    ensures Fits32(Narrow32(t)) && (Narrow32(t) - t) % 0x1_0000_0000 == 0
  {
    var p := t / 0x1_0000_0000;
    var k := if t % 0x1_0000_0000 < 0x8000_0000 then 0 - p else -1 - p;
    assert Narrow32(t) - t == 0x1_0000_0000 * k;
    MultipleIsZero(0x1_0000_0000, k);
  }

  lemma {:induction false} WrapCongruent(t: int)
    ensures Fits64(Signed64(Mod64(t))) && (Signed64(Mod64(t)) - t) % 0x1_0000_0000_0000_0000 == 0
  {
    var p := t / 0x1_0000_0000_0000_0000;
    var k := if Mod64(t) < 0x8000_0000_0000_0000 then 0 - p else -1 - p;
    assert Signed64(Mod64(t)) - t == 0x1_0000_0000_0000_0000 * k;
    MultipleIsZero(0x1_0000_0000_0000_0000, k);
  }

  lemma SameResidue(a: int, b: int, k: int)
    requires b == a + 0x1_0000_0000 * k
    ensures a % 0x1_0000_0000 == b % 0x1_0000_0000
  {
    var qa, ra := a / 0x1_0000_0000, a % 0x1_0000_0000;
    assert b == 0x1_0000_0000 * (qa + k) + ra;
  }

  predicate Within(ps: seq<nat>, n: nat) {
    forall k | 0 <= k < |ps| :: ps[k] < n
  }

  /** The elements of `s` at the listed positions. */
  function Select<T>(s: seq<T>, ps: seq<nat>): (r: seq<T>)
    requires Within(ps, |s|)
    ensures |r| == |ps|
    ensures forall k | 0 <= k < |ps| :: r[k] == s[ps[k]]
  {
    seq(|ps|, k requires 0 <= k < |ps| => s[ps[k]])
  }

  /** The positions lo, lo+1, ..., hi-1. */
  function Range(lo: nat, hi: nat): (r: seq<nat>)
    requires lo <= hi
    ensures |r| == hi - lo
    ensures forall k | 0 <= k < |r| :: r[k] == lo + k
  {
    seq(hi - lo, k requires 0 <= k < hi - lo => lo + k)
  }

  predicate Increasing(ps: seq<nat>) {
    forall i, j | 0 <= i < j < |ps| :: ps[i] < ps[j]
  }

  function Remove<T>(s: seq<T>, k: nat): (r: seq<T>)
    requires k < |s|
    ensures |r| == |s| - 1
  {
    s[..k] + s[k + 1..]
  }

  lemma SelectRemove<T>(s: seq<T>, ps: seq<nat>, k: nat)
    requires Within(ps, |s|) && k < |ps|
    ensures Within(Remove(ps, k), |s|) && Select(s, Remove(ps, k)) == Remove(Select(s, ps), k)
  {}

  lemma RemoveOne(s: seq<nat>, k: nat)
    requires k < |s|
    ensures multiset(Remove(s, k)) == multiset(s) - multiset{s[k]} && s[k] in multiset(s)
    ensures multiset(s) == multiset(Remove(s, k)) + multiset{s[k]}
  {
    assert s == s[..k] + [s[k]] + s[k + 1..];
  }

  /** Listing the same positions in another order selects the same elements. */
  lemma {:induction false} SelectPermuted(s: seq<nat>, a: seq<nat>, b: seq<nat>)
    requires Within(a, |s|) && Within(b, |s|) && multiset(a) == multiset(b)
    ensures multiset(Select(s, a)) == multiset(Select(s, b))
    decreases |a|
  {
    if a == [] {
      assert |multiset(b)| == 0;
    } else {
      RemoveOne(a, 0);
      var k :| 0 <= k < |b| && b[k] == a[0];
      RemoveOne(b, k);
      SelectRemove(s, a, 0);
      SelectRemove(s, b, k);
      RemoveOne(Select(s, a), 0);
      RemoveOne(Select(s, b), k);
      hide Remove;
      SelectPermuted(s, Remove(a, 0), Remove(b, k));
    }
  }

  lemma SelectAppend<T>(s: seq<T>, a: seq<nat>, b: seq<nat>)
    requires Within(a, |s|) && Within(b, |s|)
    ensures Within(a + b, |s|) && Select(s, a + b) == Select(s, a) + Select(s, b)
  {}

  lemma Regroup<T>(a: seq<T>, b: seq<T>, c: seq<T>)
    ensures a + (b + c) == (a + b) + c
  {}
}
