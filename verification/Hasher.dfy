/** The buffered hasher: any sequence of updates, then the padding, computes the hash
    of everything it was given. */
module Hasher {
  import opened Base
  import opened Bytes
  import opened Sha256

  /** The message schedule of a block, word by word. */
  method Expand(block: seq<Byte>) returns (w: seq<bv32>)
    requires |block| == 64
    ensures |w| == 64 && forall j :: 0 <= j < 64 ==> w[j] == Schedule(block, j)
  {
    hide BigWord, Extend, Schedule;
    w := [];
    for i := 0 to 16
      invariant |w| == i && forall j :: 0 <= j < i ==> w[j] == Schedule(block, j)
    {
      FirstWords(block, i);
      w := w + [BigWord(block[4 * i], block[4 * i + 1], block[4 * i + 2], block[4 * i + 3])];
    }
    for i := 16 to 64
      invariant |w| == i && forall j :: 0 <= j < i ==> w[j] == Schedule(block, j)
    {
      NextWord(block, i);
      w := w + [Extend(w[i - 2], w[i - 7], w[i - 15], w[i - 16])];
    }
  }

  lemma FirstWords(block: seq<Byte>, t: nat)
    requires |block| == 64 && t < 16
    ensures Schedule(block, t) == BigWord(block[4 * t], block[4 * t + 1], block[4 * t + 2], block[4 * t + 3])
  {
  }

  lemma NextWord(block: seq<Byte>, t: nat)
    requires |block| == 64 && 16 <= t
    ensures Schedule(block, t)
         == Extend(Schedule(block, t - 2), Schedule(block, t - 7), Schedule(block, t - 15), Schedule(block, t - 16))
  {
  }

  lemma NoRounds(v: Words, block: seq<Byte>)
    requires |block| == 64
    ensures Rounds(v, block, 0) == v
  {
  }

  lemma OneRound(v: Words, block: seq<Byte>, t: nat)
    requires |block| == 64 && t < 64
    ensures Rounds(v, block, t + 1) == Round(Rounds(v, block, t), Constant(t), Schedule(block, t))
  {
    hide Round, Constant, Schedule;
  }

  class Hasher {
    const state: array<bv32>
    const buffer: array<Byte>
    var buffered: nat
    var total: nat
    var finished: bool
    ghost var absorbed: seq<Byte>

    function View(): Words
      requires state.Length == 8
      reads state
    {
      Words(state[0], state[1], state[2], state[3], state[4], state[5], state[6], state[7])
    }

    /** The chaining value stands for the whole blocks, the buffer for what is left. */
    ghost predicate Aligned()
      reads this`buffered, this`absorbed, state, buffer
    {
      && state.Length == 8 && buffer.Length == 64 && buffered < 64
      && |absorbed| % 64 == buffered
      && (|absorbed| - buffered) % 64 == 0
      && View() == Absorb(IV, absorbed[..|absorbed| - buffered])
      && buffer[..buffered] == absorbed[|absorbed| - buffered..]
    }

    ghost predicate Valid()
      reads this, state, buffer
    {
      Aligned() && total == |absorbed| % TWO64
    }

    constructor ()
      ensures Valid() && absorbed == [] && !finished && fresh(state) && fresh(buffer)
    {
      state := new bv32[8][0x6a09e667, 0xbb67ae85, 0x3c6ef372, 0xa54ff53a, 0x510e527f, 0x9b05688c, 0x1f83d9ab, 0x5be0cd19];
      buffer := new Byte[64](_ => 0);
      buffered, total, finished, absorbed := 0, 0, false, [];
    }

    /** `compress`: the message schedule, then the sixty-four rounds. */
    method CompressBuffer()
      requires state.Length == 8 && buffer.Length == 64
      modifies state
      ensures View() == Compress(old(View()), buffer[..])
    {
      hide Rounds, Schedule, Plus;
      var w := Expand(buffer[..]);
      var v := RunRounds(w, buffer[..]);
      state[0] := Plus(state[0], v.a);
      state[1] := Plus(state[1], v.b);
      state[2] := Plus(state[2], v.c);
      state[3] := Plus(state[3], v.d);
      state[4] := Plus(state[4], v.e);
      state[5] := Plus(state[5], v.f);
      state[6] := Plus(state[6], v.g);
      state[7] := Plus(state[7], v.h);
    }

    method RunRounds(w: seq<bv32>, ghost block: seq<Byte>) returns (v: Words)
      requires state.Length == 8 && |w| == 64 && |block| == 64
      requires forall j :: 0 <= j < 64 ==> w[j] == Schedule(block, j)
      ensures v == Rounds(View(), block, 64)
    {
      hide Rounds, Schedule, Constant, Temp1, Temp2, Plus;
      ghost var start := View();
      NoRounds(start, block);
      var a, b, c, d, e, f, g, h := state[0], state[1], state[2], state[3], state[4], state[5], state[6], state[7];
      for i := 0 to 64
        invariant Words(a, b, c, d, e, f, g, h) == Rounds(start, block, i)
      {
        OneRound(start, block, i);
        var temp1, temp2 := Temp1(e, f, g, h, Constant(i), w[i]), Temp2(a, b, c);
        h, g, f, e, d, c, b, a := g, f, e, Plus(d, temp1), c, b, a, Plus(temp1, temp2);
      }
      v := Words(a, b, c, d, e, f, g, h);
    }

    method Fill(chunk: seq<Byte>)
      requires buffer.Length == 64 && buffered + |chunk| <= 64
      modifies buffer
      ensures buffer[..buffered + |chunk|] == old(buffer[..buffered]) + chunk
    {
      forall i | 0 <= i < |chunk| { buffer[buffered + i] := chunk[i]; }
    }

    /** One step of the update loop: fill the buffer, compress it when it is full. */
    method Feed(chunk: seq<Byte>)
      requires Aligned() && 0 < |chunk| <= 64 - buffered
      modifies this`buffered, this`absorbed, state, buffer
      ensures Aligned() && absorbed == old(absorbed) + chunk
    {
      hide Absorb, Compress, View;
      ghost var n := |absorbed| - buffered;
      ghost var before, rest := absorbed[..n], absorbed[n..];
      Fill(chunk);
      absorbed := absorbed + chunk;
      buffered := buffered + |chunk|;
      Parts(old(absorbed), chunk, n);
      if buffered == buffer.Length {
        CompressBuffer();
        assert buffer[..] == buffer[..64];
        AbsorbOne(IV, before, rest + chunk);
        buffered := 0;
        assert absorbed[..|absorbed|] == absorbed && absorbed[|absorbed|..] == [];
      }
    }

    lemma Shape()
      requires Aligned()
      ensures state.Length == 8 && buffered < 64 && |absorbed| % 64 == buffered && (|absorbed| - buffered) % 64 == 0
      ensures View() == Absorb(IV, absorbed[..|absorbed| - buffered])
    {
    }

    /** The loop of `update`. */
    method Pour(data: seq<Byte>)
      requires Aligned()
      modifies this`buffered, this`absorbed, state, buffer
      ensures Aligned() && absorbed == old(absorbed) + data
    {
      hide Aligned;
      var cursor: nat, remaining: nat := 0, |data|;
      while remaining > 0
        invariant cursor + remaining == |data|
        invariant Aligned() && absorbed == old(absorbed) + data[..cursor]
      {
        Shape();
        var space := 64 - buffered;
        var take := if remaining < space then remaining else space;
        Feed(data[cursor..cursor + take]);
        Prefix(old(absorbed), data, cursor, cursor + take);
        cursor := cursor + take;
        remaining := remaining - take;
      }
      assert data[..|data|] == data;
    }

    /** `update`: everything is absorbed, however it was cut into calls, until the digest
        has been taken; from then on nothing changes. */
    method Update(data: seq<Byte>)
      requires Valid()
      modifies this, state, buffer
      ensures Valid() && finished == old(finished)
      ensures !finished ==> absorbed == old(absorbed) + data
      ensures finished ==> unchanged(this) && unchanged(state) && unchanged(buffer)
    {
      hide Aligned;
      if finished { return; }
      total := (total + |data|) % TWO64;
      Pour(data);
    }

    /** Zero bytes up to where the length field starts. */
    method PadZeros(ghost m: seq<Byte>)
      requires Valid() && !finished && absorbed == m + [0x80]
      modifies this, state, buffer
      ensures Valid() && !finished && absorbed == m + [0x80] + seq(Zeros(|m|), _ => 0)
    {
      hide Aligned, Zeros;
      ghost var zeros: seq<Byte> := [];
      while buffered != 56
        invariant Valid() && !finished && absorbed == m + [0x80] + zeros
        invariant |zeros| <= Zeros(|m|) && forall b :: b in zeros ==> b == 0
        decreases Zeros(|m|) - |zeros|
      {
        Shape();
        ZerosLeft(|m|, |zeros|);
        Update([0]);
        assert m + [0x80] + zeros + [0] == m + [0x80] + (zeros + [0]);
        zeros := zeros + [0];
      }
      Shape();
      ZerosLeft(|m|, |zeros|);
      AllZero(zeros, Zeros(|m|));
    }

    /** Marks the end, fills with zeros up to the length field, and writes the length. A
        second call yields the zero digest. */
    method Finish() returns (digest: seq<Byte>)
      requires Valid()
      modifies this, state, buffer
      ensures Valid() && finished && |digest| == 32
      ensures digest == if old(finished) then seq(32, _ => 0) else Hash(old(absorbed))
    {
      hide Aligned, Absorb, Pad, Big64, Zeros, Output;
      if finished { return seq(32, _ => 0); }
      ghost var m := absorbed;
      var bits := total * 8 % TWO64;
      Update([0x80]);
      PadZeros(m);
      var field := LengthField(bits);
      LengthWraps(|m|);
      Update(field);
      PadIs(m);
      Shape();
      assert absorbed[..|absorbed|] == absorbed;
      finished := true;
      digest := Output(View());
    }
  }

  lemma Parts(whole: seq<Byte>, chunk: seq<Byte>, n: nat)
    requires n <= |whole|
    ensures (whole + chunk)[..n] == whole[..n] && (whole + chunk)[n..] == whole[n..] + chunk
    ensures whole + chunk == whole[..n] + (whole[n..] + chunk)
  {
  }

  lemma Prefix(a: seq<Byte>, data: seq<Byte>, i: nat, j: nat)
    requires i <= j <= |data|
    ensures a + data[..i] + data[i..j] == a + data[..j]
  {
  }

  lemma AllZero(zeros: seq<Byte>, n: nat)
    requires |zeros| == n && forall b :: b in zeros ==> b == 0
    ensures zeros == seq(n, _ => 0)
  {
    forall i | 0 <= i < n ensures zeros[i] == 0 { assert zeros[i] in zeros; }
  }

  lemma ZerosLeft(n: nat, k: nat)
    requires k <= Zeros(n)
    ensures (n + 1 + k) % 64 == 56 <==> k == Zeros(n)
  {
  }

  lemma PadIs(m: seq<Byte>)
    ensures Pad(m) == m + [0x80] + seq(Zeros(|m|), _ => 0) + Big64(8 * |m|)
  {
  }

  /** The eight bytes of the length, by shifting. */
  method LengthField(bits: nat) returns (field: seq<Byte>)
    ensures field == Big64(bits)
  {
    field := [];
    var i := 0;
    while i < 8
      invariant 0 <= i <= 8 && |field| == i
      invariant forall j :: 0 <= j < i ==> field[j] == Big64(bits)[j]
    {
      BigAt(bits, 8, i);
      var weight := Weight(7 - i);
      field := field + [bits / weight % 256];
      i := i + 1;
    }
  }

  method Weight(k: nat) returns (p: nat)
    ensures p == Pow256(k)
  {
    p := 1;
    var j := 0;
    while j < k
      invariant 0 <= j <= k && p == Pow256(j)
    {
      p, j := 256 * p, j + 1;
    }
  }

  /** Counting bytes modulo 2^64 and then bits modulo 2^64 loses nothing the field keeps. */
  lemma LengthWraps(n: nat)
    ensures Big64(n % TWO64 * 8 % TWO64) == Big64(8 * n)
  {
    Widths();
    var q, r := n / TWO64, n % TWO64;
    assert 8 * n == TWO64 * (8 * q) + 8 * r;
    SameRemainder(8 * n, 8 * r, TWO64, 8 * q);
    BigWraps(8 * n, 8);
    hide Pow256, BigBytes;
  }

  lemma SameRemainder(a: nat, b: nat, m: nat, k: nat)
    requires m > 0 && a == m * k + b
    ensures a % m == b % m
  {
    var q, r := b / m, b % m;
    assert a == m * (k + q) + r;
    Unique(a, m, k + q, r);
  }

  function Joined(chunks: seq<seq<Byte>>): seq<Byte> {
    if chunks == [] then [] else Joined(chunks[..|chunks| - 1]) + chunks[|chunks| - 1]
  }

  /** However a message is cut into updates, the result is the hash of the whole. */
  method HashChunks(chunks: seq<seq<Byte>>) returns (digest: seq<Byte>)
    ensures |digest| == 32 && digest == Hash(Joined(chunks))
  {
    hide Hash, Hasher.Valid, Hasher.Aligned;
    var hasher := new Hasher();
    var i := 0;
    while i < |chunks|
      invariant 0 <= i <= |chunks| && hasher.Valid() && !hasher.finished
      invariant fresh(hasher) && fresh(hasher.state) && fresh(hasher.buffer)
      invariant hasher.absorbed == Joined(chunks[..i])
    {
      assert chunks[..i + 1][..i] == chunks[..i];
      hasher.Update(chunks[i]);
      i := i + 1;
    }
    assert chunks[..|chunks|] == chunks;
    digest := hasher.Finish();
  }
}
