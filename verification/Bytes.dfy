/** Bytes, little-endian numbers, and what a reader of bytes returns. */
module Bytes {
  import opened Base

  type Byte = b: int | 0 <= b < 256

  const TWO32: nat := 0x1_0000_0000
  const TWO64: nat := 0x1_0000_0000_0000_0000

  function Pow256(k: nat): (p: nat)
    ensures p > 0
  {
    if k == 0 then 1 else 256 * Pow256(k - 1)
  }

  lemma Widths()
    ensures Pow256(2) == 0x1_0000 && Pow256(4) == TWO32 && Pow256(8) == TWO64
  {
    assert Pow256(1) == 256;
    assert Pow256(2) == 0x1_0000;
    assert Pow256(3) == 0x100_0000;
    assert Pow256(4) == TWO32;
    assert Pow256(5) == 0x100_0000_0000;
    assert Pow256(6) == 0x1_0000_0000_0000;
    assert Pow256(7) == 0x100_0000_0000_0000;
  }

  /** The low `k` bytes of a number, least significant first. */
  function Little(n: nat, k: nat): (r: seq<Byte>)
    ensures |r| == k
  {
    if k == 0 then [] else [n % 256] + Little(n / 256, k - 1)
  }

  function Number(bytes: seq<Byte>): nat {
    if bytes == [] then 0 else bytes[0] + 256 * Number(bytes[1..])
  }

  lemma {:induction false} NumberBound(bytes: seq<Byte>)
    ensures Number(bytes) < Pow256(|bytes|)
  {
    if bytes != [] { NumberBound(bytes[1..]); }
  }

  /** Writing `k` bytes keeps the number modulo their width. */
  lemma {:induction false} NumberOfLittle(n: nat, k: nat)
    ensures Number(Little(n, k)) == n % Pow256(k)
  {
    if k > 0 {
      NumberOfLittle(n / 256, k - 1);
      var bytes := Little(n, k);
      assert bytes[1..] == Little(n / 256, k - 1);
      DivMod(n, Pow256(k - 1));
    } else {
      assert n % 1 == 0;
    }
  }

  lemma DivMod(n: nat, p: nat)
    requires p > 0
    ensures n % 256 + 256 * ((n / 256) % p) == n % (256 * p)
    ensures n / 256 / p == n / (256 * p)
  {
    var q, r := n / 256, n % 256;
    var a, b := q / p, q % p;
    assert n == 256 * q + r && q == p * a + b;
    assert n == (256 * p) * a + (256 * b + r) by {
      assert 256 * (p * a + b) == (256 * p) * a + 256 * b;
    }
    Unique(n, 256 * p, a, 256 * b + r);
  }

  /** A quotient and a small remainder are the quotient and the remainder. */
  lemma Unique(n: nat, m: nat, q: nat, r: nat)
    requires m > 0 && n == m * q + r && r < m
    ensures n % m == r && n / m == q
  {
    var q', r' := n / m, n % m;
    assert n == m * q' + r';
    if q' > q {
      NextMultiple(m, q, q');
    } else if q' < q {
      NextMultiple(m, q', q);
    }
  }

  lemma {:induction false} NextMultiple(m: nat, a: nat, b: nat)
    requires a < b
    ensures m * b >= m * a + m
  {
    if a + 1 < b { NextMultiple(m, a, b - 1); }
  }

  lemma {:induction false} LittleOfNumber(bytes: seq<Byte>)
    ensures Little(Number(bytes), |bytes|) == bytes
  {
    if bytes != [] {
      LittleOfNumber(bytes[1..]);
      var n := Number(bytes);
      Unique(n, 256, Number(bytes[1..]), bytes[0]);
    }
  }

  function U16(n: nat): seq<Byte> { Little(n, 2) }
  function U32(n: nat): seq<Byte> { Little(n, 4) }
  function U64(n: nat): seq<Byte> { Little(n, 8) }

  lemma U32RoundTrip(n: nat)
    requires n < TWO32
    ensures |U32(n)| == 4 && Number(U32(n)) == n
  {
    Widths();
    NumberOfLittle(n, 4);
    hide Number, Pow256;
  }

  lemma U64RoundTrip(n: nat)
    requires n < TWO64
    ensures |U64(n)| == 8 && Number(U64(n)) == n
  {
    Widths();
    NumberOfLittle(n, 8);
    hide Number, Pow256;
  }

  lemma U16RoundTrip(n: nat)
    ensures |U16(n)| == 2 && Number(U16(n)) == n % 0x1_0000
  {
    Widths();
    NumberOfLittle(n, 2);
    hide Number, Pow256;
  }

  lemma WordBound(bytes: seq<Byte>)
    ensures |bytes| == 2 ==> Number(bytes) < 0x1_0000
    ensures |bytes| == 4 ==> Number(bytes) < TWO32
    ensures |bytes| == 8 ==> Number(bytes) < TWO64
  {
    Widths();
    NumberBound(bytes);
    hide Number, Pow256;
  }

  // ---------------------------------------------------------------------
  // Reading.
  // ---------------------------------------------------------------------

  /** A value and the bytes after it. */
  datatype Read<T> = Read(value: T, rest: seq<Byte>)

  /** The items read so far in front of the rest. */
  function Join<T>(items: seq<T>, r: Result<Read<seq<T>>>): Result<Read<seq<T>>> {
    if r.Err? then r else Ok(Read(items + r.value.value, r.value.rest))
  }

  lemma JoinSnoc<T>(items: seq<T>, x: T, r: Result<Read<seq<T>>>)
    ensures Join(items, Join([x], r)) == Join(items + [x], r)
  {
    if r.Ok? { assert items + ([x] + r.value.value) == items + [x] + r.value.value; }
  }

  lemma Chain(a: seq<Byte>, b: seq<Byte>, c: seq<Byte>)
    ensures a + b + c == a + (b + c)
  {
  }
}
