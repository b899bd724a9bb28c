/** Cipher feedback encryption (section 6.3 of NIST SP 800-38A) around a block cipher that is not looked into. */
module Cipher {
  import opened Bytes

  type Block = s: seq<byte> | |s| == 16 witness [0, 0, 0, 0, 0, 0, 0, 0, 0, 0, 0, 0, 0, 0, 0, 0]

  /** AES under the shared key, forward direction only. */
  type BlockCipher = Block -> Block

  function Pow2(n: nat): (r: nat)
    ensures r > 0
  {
    if n == 0 then 1 else 2 * Pow2(n - 1)
  }

  /** Exclusive or of the lowest `n` bits. */
  function XorBits(a: nat, b: nat, n: nat): (r: nat)
    ensures r < Pow2(n)
  {
    if n == 0 then 0 else (if a % 2 == b % 2 then 0 else 1) + 2 * XorBits(a / 2, b / 2, n - 1)
  }

  function XorByte(a: byte, b: byte): byte {
    assert Pow2(4) == 16 && Pow2(8) == 16 * Pow2(4);
    XorBits(a, b, 8)
  }

  function Xor(s: seq<byte>, k: Block): (r: seq<byte>)
    requires |s| <= 16
    ensures |r| == |s|
  {
    seq(|s|, i requires 0 <= i < |s| => XorByte(s[i], k[i]))
  }

  lemma {:induction false} XorBitsTwice(a: nat, b: nat, n: nat)
    requires a < Pow2(n)
    ensures XorBits(XorBits(a, b, n), b, n) == a
  {
    if n > 0 {
      var r, rest := XorBits(a, b, n), XorBits(a / 2, b / 2, n - 1);
      assert r / 2 == rest && r % 2 == if a % 2 == b % 2 then 0 else 1;
      XorBitsTwice(a / 2, b / 2, n - 1);
      assert XorBits(r, b, n) == (if r % 2 == b % 2 then 0 else 1) + 2 * XorBits(rest, b / 2, n - 1);
    }
  }

  lemma XorByteTwice(a: byte, b: byte)
    ensures XorByte(XorByte(a, b), b) == a
  {
    assert Pow2(4) == 16 && Pow2(8) == 16 * Pow2(4);
    XorBitsTwice(a, b, 8);
  }

  lemma XorTwice(s: seq<byte>, k: Block)
    requires |s| <= 16
    ensures Xor(Xor(s, k), k) == s
  {
    hide XorByte;
    forall i | 0 <= i < |s| ensures Xor(Xor(s, k), k)[i] == s[i] {
      XorByteTwice(s[i], k[i]);
    }
  }

  function Encrypt(E: BlockCipher, iv: Block, p: seq<byte>): (c: seq<byte>)
    ensures |c| == |p|
    decreases |p|
  {
    if |p| <= 16 then Xor(p, E(iv))
    else
      var c := Xor(p[..16], E(iv));
      c + Encrypt(E, c, p[16..])
  }

  function Decrypt(E: BlockCipher, iv: Block, c: seq<byte>): (p: seq<byte>)
    ensures |p| == |c|
    decreases |c|
  {
    if |c| <= 16 then Xor(c, E(iv))
    else Xor(c[..16], E(iv)) + Decrypt(E, c[..16], c[16..])
  }

  lemma {:induction false} DecryptEncrypt(E: BlockCipher, iv: Block, p: seq<byte>)
    ensures Decrypt(E, iv, Encrypt(E, iv, p)) == p
    decreases |p|
  {
    hide Xor;
    if |p| <= 16 {
      XorTwice(p, E(iv));
    } else {
      var c := Xor(p[..16], E(iv));
      XorTwice(p[..16], E(iv));
      DecryptEncrypt(E, c, p[16..]);
      var all := Encrypt(E, iv, p);
      assert all[..16] == c && all[16..] == Encrypt(E, c, p[16..]);
      assert p == p[..16] + p[16..];
    }
  }

  /** `encryptData`: the initialization vector travels in front of the text. */
  function EncryptData(E: BlockCipher, iv: Block, p: seq<byte>): (r: seq<byte>)
    ensures |r| == 16 + |p|
  {
    iv + Encrypt(E, iv, p)
  }

  /** `decryptData`: takes the first 16 bytes as the vector, so it needs that many. */
  function DecryptData(E: BlockCipher, r: seq<byte>): (p: seq<byte>)
    requires |r| >= 16
    ensures |p| == |r| - 16
  {
    Decrypt(E, r[..16], r[16..])
  }

  /** For every cipher, vector and message. */
  lemma DecryptDataUndoes(E: BlockCipher, iv: Block, p: seq<byte>)
    ensures DecryptData(E, EncryptData(E, iv, p)) == p
  {
    hide Encrypt, Decrypt;
    var r := EncryptData(E, iv, p);
    assert r[..16] == iv && r[16..] == Encrypt(E, iv, p);
    DecryptEncrypt(E, iv, p);
  }

  // ---------------------------------------------------------------- exclusive or, bit by bit

  function Bit(a: nat, k: nat): nat { (a / Pow2(k)) % 2 }

  lemma BitHalf(a: nat, k: nat)
    requires k > 0
    ensures Bit(a, k) == Bit(a / 2, k - 1)
  {
    HalfThenRest(a, Pow2(k - 1));
  }

  lemma HalfThenRest(a: nat, d: nat)
    requires d > 0
    ensures a / (2 * d) == (a / 2) / d
  {
    var q, r := (a / 2) / d, (a / 2) % d;
    assert a == 2 * (q * d + r) + a % 2 == (2 * d) * q + (2 * r + a % 2);
    assert 0 <= 2 * r + a % 2 < 2 * d;
    DivideIs(a, 2 * d, q, 2 * r + a % 2);
  }

  lemma XorParts(a: nat, b: nat, n: nat)
    requires n > 0
    ensures var r := XorBits(a, b, n);
      r / 2 == XorBits(a / 2, b / 2, n - 1) && r % 2 == if a % 2 == b % 2 then 0 else 1
  {}

  /** A bit of the result is set exactly when the two operands differ there. */
  lemma {:induction false} XorBitwise(a: nat, b: nat, n: nat, k: nat)
    requires k < n
    ensures Bit(XorBits(a, b, n), k) == if Bit(a, k) != Bit(b, k) then 1 else 0
  {
    XorParts(a, b, n);
    hide XorBits;
    if k > 0 {
      hide Bit;
      XorBitwise(a / 2, b / 2, n - 1, k - 1);
      BitHalf(XorBits(a, b, n), k);
      BitHalf(a, k);
      BitHalf(b, k);
    } else {
      assert Pow2(0) == 1;
    }
  }

  lemma {:induction false} SameBits(a: nat, b: nat, n: nat)
    requires a < Pow2(n) && b < Pow2(n) && forall k: nat | k < n :: Bit(a, k) == Bit(b, k)
    ensures a == b
  {
    if n > 0 {
      assert Pow2(0) == 1;
      assert Bit(a, 0) == Bit(b, 0);
      forall k: nat | k < n - 1 ensures Bit(a / 2, k) == Bit(b / 2, k) {
        BitHalf(a, k + 1);
        BitHalf(b, k + 1);
        assert Bit(a, k + 1) == Bit(b, k + 1);
      }
      SameBits(a / 2, b / 2, n - 1);
    }
  }

  /** So the bytes of the key stream can be read off plain text and cipher text: different keys give different bytes. */
  lemma {:induction false} XorByteTellsKey(a: byte, b: byte, c: byte)
    ensures XorByte(a, b) == XorByte(a, c) <==> b == c
  {
    assert Pow2(4) == 16 && Pow2(8) == 16 * Pow2(4);
    if XorByte(a, b) == XorByte(a, c) {
      forall k: nat | k < 8 ensures Bit(b, k) == Bit(c, k) {
        XorBitwise(a, b, 8, k);
        XorBitwise(a, c, 8, k);
      }
      hide Bit, XorByte;
      SameBits(b, c, 8);
    }
  }

  /** The result of `XorByte` is the byte whose bits tell where the operands differ, and no other. */
  lemma {:induction false} XorByteExactly(a: byte, b: byte, c: byte)
    ensures c == XorByte(a, b) <==> forall k: nat | k < 8 :: Bit(c, k) == if Bit(a, k) != Bit(b, k) then 1 else 0
  {
    assert Pow2(4) == 16 && Pow2(8) == 16 * Pow2(4);
    forall k: nat | k < 8 ensures Bit(XorByte(a, b), k) == if Bit(a, k) != Bit(b, k) then 1 else 0 {
      XorBitwise(a, b, 8, k);
    }
    hide Bit, XorByte;
    if forall k: nat | k < 8 :: Bit(c, k) == if Bit(a, k) != Bit(b, k) then 1 else 0 {
      SameBits(c, XorByte(a, b), 8);
    }
  }

  // ---------------------------------------------------------------- cipher feedback, block by block

  /** The j-th run of 16 bytes, shorter at the end. */
  function BlockAt(s: seq<byte>, j: nat): (r: seq<byte>)
    requires 16 * j < |s|
    ensures 0 < |r| <= 16
  {
    s[16 * j..if 16 * j + 16 <= |s| then 16 * j + 16 else |s|]
  }

  lemma SliceShift(h: seq<byte>, s: seq<byte>, a: nat, b: nat)
    requires a <= b <= |s|
    ensures (h + s)[|h| + a..|h| + b] == s[a..b]
  {}

  lemma BlockShift(h: seq<byte>, s: seq<byte>, j: nat)
    requires |h| == 16 && j > 0 && 16 * j < |h + s|
    ensures 16 * (j - 1) < |s| && BlockAt(h + s, j) == BlockAt(s, j - 1)
  {
    var a := 16 * (j - 1);
    SliceShift(h, s, a, if a + 16 <= |s| then a + 16 else |s|);
    assert 16 * j == 16 + a;
  }

  lemma FirstBlock(s: seq<byte>)
    requires |s| >= 16
    ensures BlockAt(s, 0) == s[..16]
  {}

  /** The law of one block, moved one block down. */
  lemma FeedbackShift(E: BlockCipher, iv: Block, h: Block, t: seq<byte>, g: seq<byte>, q: seq<byte>, j: nat)
    requires |t| == |q| && |g| == 16 && j > 0 && 16 * (j - 1) < |q|
    requires (j > 1 ==> |BlockAt(t, j - 2)| == 16)
      && BlockAt(t, j - 1) == Xor(BlockAt(q, j - 1), E(if j == 1 then h else BlockAt(t, j - 2)))
    ensures |BlockAt(h + t, j - 1)| == 16
    ensures BlockAt(h + t, j) == Xor(BlockAt(g + q, j), E(BlockAt(h + t, j - 1)))
  {
    FirstBlock(h + t);
    assert (h + t)[..16] == h;
    hide BlockAt, Xor;
    BlockShift(h, t, j);
    BlockShift(g, q, j);
    if j > 1 { BlockShift(h, t, j - 1); }
  }

  /**
   The reference form of the mode: every block of cipher text is the block of plain text under the encrypted previous
   block of cipher text, the vector standing in front of the first.
   */
  lemma {:induction false} EncryptIsFeedback(E: BlockCipher, iv: Block, p: seq<byte>, j: nat)
    requires 16 * j < |p|
    ensures var c := Encrypt(E, iv, p);
      && (j > 0 ==> |BlockAt(c, j - 1)| == 16)
      && BlockAt(c, j) == Xor(BlockAt(p, j), E(if j == 0 then iv else BlockAt(c, j - 1)))
    decreases |p|
  {
    hide Xor;
    var c := Encrypt(E, iv, p);
    if |p| <= 16 {
      assert c[0..|c|] == c && p[0..|p|] == p;
    } else {
      var h := Xor(p[..16], E(iv));
      var t := Encrypt(E, h, p[16..]);
      assert c == h + t && p == p[..16] + p[16..];
      hide Encrypt;
      FirstBlock(c);
      FirstBlock(p);
      hide BlockAt;
      if j > 0 {
        EncryptIsFeedback(E, h, p[16..], j - 1);
        FeedbackShift(E, iv, h, t, p[..16], p[16..], j);
      }
    }
  }

  // ---------------------------------------------------------------- the key is needed

  /** The two ciphers give the same key stream for a text of `p`'s length, as far as it is used. */
  predicate SameStream(E: BlockCipher, F: BlockCipher, iv: Block, p: seq<byte>)
    decreases |p|
  {
    if |p| <= 16 then E(iv)[..|p|] == F(iv)[..|p|]
    else E(iv) == F(iv) && SameStream(E, F, Xor(p[..16], E(iv)), p[16..])
  }

  lemma XorTellsKey(s: seq<byte>, k: Block, l: Block)
    requires |s| <= 16
    ensures Xor(s, k) == Xor(s, l) <==> k[..|s|] == l[..|s|]
  {
    hide XorByte;
    forall i | 0 <= i < |s| ensures Xor(s, k)[i] == Xor(s, l)[i] <==> k[..|s|][i] == l[..|s|][i] {
      XorByteTellsKey(s[i], k[i], l[i]);
    }
    if Xor(s, k) == Xor(s, l) {
      forall i | 0 <= i < |s| ensures k[..|s|][i] == l[..|s|][i] { assert Xor(s, k)[i] == Xor(s, l)[i]; }
    }
  }

  lemma UnderOtherKey(s: seq<byte>, k: Block, l: Block)
    requires |s| <= 16
    ensures Xor(Xor(s, k), l) == s <==> k[..|s|] == l[..|s|]
  {
    hide Xor;
    XorTwice(s, k);
    XorTellsKey(Xor(s, k), k, l);
  }

  /** Decryption with another cipher gives the text back if and only if the key streams agree, block by block. */
  lemma {:induction false} DecryptNeedsKey(E: BlockCipher, F: BlockCipher, iv: Block, p: seq<byte>)
    ensures Decrypt(F, iv, Encrypt(E, iv, p)) == p <==> SameStream(E, F, iv, p)
    decreases |p|
  {
    hide Xor;
    if |p| <= 16 {
      UnderOtherKey(p, E(iv), F(iv));
    } else {
      var h := Xor(p[..16], E(iv));
      var t := Encrypt(E, h, p[16..]);
      var c := Encrypt(E, iv, p);
      assert c == h + t && c[..16] == h && c[16..] == t;
      assert p == p[..16] + p[16..];
      UnderOtherKey(p[..16], E(iv), F(iv));
      DecryptNeedsKey(E, F, h, p[16..]);
      assert E(iv)[..16] == E(iv) && F(iv)[..16] == F(iv);
      var x, y := Xor(h, F(iv)), Decrypt(F, h, t);
      assert Decrypt(F, iv, c) == x + y;
      hide Encrypt, Decrypt, SameStream;
      if x + y == p { assert x == p[..16] && y == p[16..]; }
    }
  }

  /** For a challenge of one block, that is one value of the cipher. */
  lemma {:induction false} AnswerNeedsKey(E: BlockCipher, F: BlockCipher, iv: Block, p: seq<byte>)
    requires |p| == 16
    ensures DecryptData(F, EncryptData(E, iv, p)) == p <==> F(iv) == E(iv)
  {
    hide Encrypt, Decrypt;
    DecryptNeedsKey(E, F, iv, p);
    var r := EncryptData(E, iv, p);
    assert r[..16] == iv && r[16..] == Encrypt(E, iv, p);
    assert E(iv)[..16] == E(iv) && F(iv)[..16] == F(iv);
  }
}
