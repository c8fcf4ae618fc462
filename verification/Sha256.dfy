/** SHA-256 as in FIPS 180-4, and the buffered hasher that computes it. */
module Sha256 {
  import opened Base
  import opened Bytes

  // ---------------------------------------------------------------------
  // The standard (sections 4.1.2, 4.2.2, 5.1.1, 5.3.3 and 6.2 of FIPS 180-4).
  // ---------------------------------------------------------------------

  const K: seq<bv32> := [
    0x428a2f98, 0x71374491, 0xb5c0fbcf, 0xe9b5dba5, 0x3956c25b, 0x59f111f1, 0x923f82a4, 0xab1c5ed5,
    0xd807aa98, 0x12835b01, 0x243185be, 0x550c7dc3, 0x72be5d74, 0x80deb1fe, 0x9bdc06a7, 0xc19bf174,
    0xe49b69c1, 0xefbe4786, 0x0fc19dc6, 0x240ca1cc, 0x2de92c6f, 0x4a7484aa, 0x5cb0a9dc, 0x76f988da,
    0x983e5152, 0xa831c66d, 0xb00327c8, 0xbf597fc7, 0xc6e00bf3, 0xd5a79147, 0x06ca6351, 0x14292967,
    0x27b70a85, 0x2e1b2138, 0x4d2c6dfc, 0x53380d13, 0x650a7354, 0x766a0abb, 0x81c2c92e, 0x92722c85,
    0xa2bfe8a1, 0xa81a664b, 0xc24b8b70, 0xc76c51a3, 0xd192e819, 0xd6990624, 0xf40e3585, 0x106aa070,
    0x19a4c116, 0x1e376c08, 0x2748774c, 0x34b0bcb5, 0x391c0cb3, 0x4ed8aa4a, 0x5b9cca4f, 0x682e6ff3,
    0x748f82ee, 0x78a5636f, 0x84c87814, 0x8cc70208, 0x90befffa, 0xa4506ceb, 0xbef9a3f7, 0xc67178f2]

  function Constant(t: nat): bv32
    requires t < 64
  {
    K[t]
  }

  /** The chaining value: eight words. */
  datatype Words = Words(a: bv32, b: bv32, c: bv32, d: bv32, e: bv32, f: bv32, g: bv32, h: bv32)

  const IV := Words(0x6a09e667, 0xbb67ae85, 0x3c6ef372, 0xa54ff53a, 0x510e527f, 0x9b05688c, 0x1f83d9ab, 0x5be0cd19)

  function Rotr(x: bv32, n: bv6): bv32
    requires 0 < n < 32
  {
    (x >> n) | (x << (32 - n))
  }

  /** Addition of words, modulo 2^32. */
  function Plus(x: bv32, y: bv32): bv32 { x + y }

  function Ch(x: bv32, y: bv32, z: bv32): bv32 { (x & y) ^ (!x & z) }
  function Maj(x: bv32, y: bv32, z: bv32): bv32 { (x & y) ^ (x & z) ^ (y & z) }
  function BigSigma0(x: bv32): bv32 { Rotr(x, 2) ^ Rotr(x, 13) ^ Rotr(x, 22) }
  function BigSigma1(x: bv32): bv32 { Rotr(x, 6) ^ Rotr(x, 11) ^ Rotr(x, 25) }
  function SmallSigma0(x: bv32): bv32 { Rotr(x, 7) ^ Rotr(x, 18) ^ (x >> 3) }
  function SmallSigma1(x: bv32): bv32 { Rotr(x, 17) ^ Rotr(x, 19) ^ (x >> 10) }

  /** Four bytes, most significant first. */
  function BigWord(p: Byte, q: Byte, r: Byte, s: Byte): bv32 {
    ((p as bv32) << 24) | ((q as bv32) << 16) | ((r as bv32) << 8) | (s as bv32)
  }

  /** The message schedule of a block. */
  function Schedule(block: seq<Byte>, t: nat): bv32
    requires |block| == 64
  {
    if t < 16 then BigWord(block[4 * t], block[4 * t + 1], block[4 * t + 2], block[4 * t + 3])
    else Extend(Schedule(block, t - 2), Schedule(block, t - 7), Schedule(block, t - 15), Schedule(block, t - 16))
  }

  function Extend(w2: bv32, w7: bv32, w15: bv32, w16: bv32): bv32 { SmallSigma1(w2) + w7 + SmallSigma0(w15) + w16 }

  function Temp1(e: bv32, f: bv32, g: bv32, h: bv32, k: bv32, w: bv32): bv32 { h + BigSigma1(e) + Ch(e, f, g) + k + w }

  function Temp2(a: bv32, b: bv32, c: bv32): bv32 { BigSigma0(a) + Maj(a, b, c) }

  function Round(v: Words, k: bv32, w: bv32): Words {
    var t1, t2 := Temp1(v.e, v.f, v.g, v.h, k, w), Temp2(v.a, v.b, v.c);
    Words(Plus(t1, t2), v.a, v.b, v.c, Plus(v.d, t1), v.e, v.f, v.g)
  }

  function Rounds(v: Words, block: seq<Byte>, t: nat): Words
    requires |block| == 64 && t <= 64
  {
    if t == 0 then v else Round(Rounds(v, block, t - 1), Constant(t - 1), Schedule(block, t - 1))
  }

  function AddWords(v: Words, w: Words): Words {
    Words(Plus(v.a, w.a), Plus(v.b, w.b), Plus(v.c, w.c), Plus(v.d, w.d),
          Plus(v.e, w.e), Plus(v.f, w.f), Plus(v.g, w.g), Plus(v.h, w.h))
  }

  function Compress(v: Words, block: seq<Byte>): Words
    requires |block| == 64
  {
    AddWords(v, Rounds(v, block, 64))
  }

  /** All whole blocks, one after the other. */
  function Absorb(v: Words, data: seq<Byte>): Words
    requires |data| % 64 == 0
    decreases |data|
  {
    if data == [] then v else Absorb(Compress(v, data[..64]), data[64..])
  }

  /** Sixty-four bits, most significant byte first. */
  function Big64(n: nat): (r: seq<Byte>)
    ensures |r| == 8
  {
    BigBytes(n, 8)
  }

  function BigBytes(n: nat, k: nat): (r: seq<Byte>)
    ensures |r| == k
  {
    if k == 0 then [] else BigBytes(n / 256, k - 1) + [n % 256]
  }

  /** How many zero bytes separate the end marker from the length. */
  function Zeros(n: nat): (k: nat)
    ensures k < 64 && (n + 1 + k + 8) % 64 == 0
  {
    (119 - n % 64) % 64
  }

  function Pad(m: seq<Byte>): (p: seq<Byte>)
    ensures |p| % 64 == 0 && m <= p
  {
    m + [0x80] + seq(Zeros(|m|), _ => 0) + Big64(8 * |m|)
  }

  function WordBytes(w: bv32): (r: seq<Byte>)
    ensures |r| == 4
  {
    [((w >> 24) & 0xFF) as int % 256, ((w >> 16) & 0xFF) as int % 256, ((w >> 8) & 0xFF) as int % 256, (w & 0xFF) as int % 256]
  }

  function Output(v: Words): (r: seq<Byte>)
    ensures |r| == 32
  {
    WordBytes(v.a) + WordBytes(v.b) + WordBytes(v.c) + WordBytes(v.d)
      + WordBytes(v.e) + WordBytes(v.f) + WordBytes(v.g) + WordBytes(v.h)
  }

  function Hash(m: seq<Byte>): (r: seq<Byte>)
    ensures |r| == 32
  {
    Output(Absorb(IV, Pad(m)))
  }

  // ---------------------------------------------------------------------
  // Facts about the standard.
  // ---------------------------------------------------------------------

  lemma {:induction false} AbsorbSplits(v: Words, a: seq<Byte>, b: seq<Byte>)
    requires |a| % 64 == 0 && |b| % 64 == 0
    ensures (|a| + |b|) % 64 == 0 && Absorb(v, a + b) == Absorb(Absorb(v, a), b)
    decreases |a|
  {
    hide Compress;
    if a == [] {
      assert a + b == b;
    } else {
      assert (a + b)[..64] == a[..64] && (a + b)[64..] == a[64..] + b;
      AbsorbSplits(Compress(v, a[..64]), a[64..], b);
    }
  }

  lemma AbsorbOne(v: Words, a: seq<Byte>, block: seq<Byte>)
    requires |a| % 64 == 0 && |block| == 64
    ensures (|a| + 64) % 64 == 0 && Absorb(v, a + block) == Compress(Absorb(v, a), block)
  {
    AbsorbSplits(v, a, block);
    hide Compress;
    assert block[..64] == block && block[64..] == [];
  }

  function BigNumber(bytes: seq<Byte>): nat {
    if bytes == [] then 0 else 256 * BigNumber(bytes[..|bytes| - 1]) + bytes[|bytes| - 1]
  }

  lemma {:induction false} BigRoundTrip(n: nat, k: nat)
    ensures BigNumber(BigBytes(n, k)) == n % Pow256(k)
  {
    if k > 0 {
      BigRoundTrip(n / 256, k - 1);
      assert BigBytes(n, k)[..k - 1] == BigBytes(n / 256, k - 1);
      DivMod(n, Pow256(k - 1));
    } else {
      assert n % 1 == 0;
    }
  }

  /** The length field holds the length in bits exactly while that fits 64 bits. */
  lemma LengthFieldExact(n: nat)
    ensures BigNumber(Big64(n)) == n % TWO64
    ensures BigNumber(Big64(n)) == n <==> n < TWO64
  {
    Widths();
    BigRoundTrip(n, 8);
    hide BigNumber, Pow256;
  }

  /** Each byte of the field on its own. */
  lemma {:induction false} BigAt(n: nat, k: nat, i: nat)
    requires i < k
    ensures BigBytes(n, k)[i] == n / Pow256(k - 1 - i) % 256
  {
    if i < k - 1 {
      BigAt(n / 256, k - 1, i);
      DivMod(n, Pow256(k - 2 - i));
    } else {
      assert n / 1 == n;
    }
  }

  /** Only the low 64 bits of the length are written. */
  lemma {:induction false} BigWraps(n: nat, k: nat)
    ensures BigBytes(n % Pow256(k), k) == BigBytes(n, k)
  {
    if k > 0 {
      var p := Pow256(k - 1);
      DivMod(n, p);
      var low := n % (256 * p);
      Unique(low, 256, n / 256 % p, n % 256);
      BigWraps(n / 256, k - 1);
    }
  }
}
