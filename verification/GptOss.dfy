/** The nibble order of MXFP4 blocks, convert/convert_gptoss.go. */
module GptOss {

  const BLOCK := 16

  function Low(b: bv8): bv8 {
    b & 0x0F
  }

  function High(b: bv8): bv8 {
    b >> 4
  }

  /** The 32 values of a block as the source stores them: byte by byte, low
      nibble first. */
  function Interleaved(block: seq<bv8>): (values: seq<bv8>)
    requires |block| == BLOCK
    ensures |values| == 32
  {
    seq(32, e requires 0 <= e < 32 => if e % 2 == 0 then Low(block[e / 2]) else High(block[e / 2]))
  }

  /** The 32 values of a block as the target reads them: all low nibbles, then
      all high ones. */
  function Planar(block: seq<bv8>): (values: seq<bv8>)
    requires |block| == BLOCK
    ensures |values| == 32
  {
    seq(32, e requires 0 <= e < 32 => if e < 16 then Low(block[e]) else High(block[e - 16]))
  }

  /** A block is determined by its values, so no two blocks are shuffled alike. */
  lemma {:induction false} PlanarDetermines(a: seq<bv8>, b: seq<bv8>)
    requires |a| == BLOCK && |b| == BLOCK && Planar(a) == Planar(b)
    ensures a == b
  {
    forall k | 0 <= k < BLOCK ensures a[k] == b[k] {
      assert Low(a[k]) == Planar(a)[k] == Planar(b)[k] == Low(b[k]);
      assert High(a[k]) == Planar(a)[k + 16] == Planar(b)[k + 16] == High(b[k]);
      NibblesDetermine(a[k], b[k]);
    }
  }

  lemma {:induction false} NibblesDetermine(x: bv8, y: bv8)
    requires Low(x) == Low(y) && High(x) == High(y)
    ensures x == y
  {
  }

  lemma {:induction false} InterleavedDetermines(a: seq<bv8>, b: seq<bv8>)
    requires |a| == BLOCK && |b| == BLOCK && Interleaved(a) == Interleaved(b)
    ensures a == b
  {
    forall k | 0 <= k < BLOCK ensures a[k] == b[k] {
      assert Low(a[k]) == Interleaved(a)[2 * k] == Interleaved(b)[2 * k] == Low(b[k]);
      assert High(a[k]) == Interleaved(a)[2 * k + 1] == Interleaved(b)[2 * k + 1] == High(b[k]);
      NibblesDetermine(a[k], b[k]);
    }
  }

  lemma {:induction false} InterleavedAt(block: seq<bv8>, k: nat)
    requires |block| == BLOCK && k < BLOCK
    ensures Interleaved(block)[2 * k] == Low(block[k]) && Interleaved(block)[2 * k + 1] == High(block[k])
  {
    hide Low;
    hide High;
    assert 2 * k / 2 == k && (2 * k + 1) / 2 == k;
  }

  lemma {:induction false} PlanarAt(block: seq<bv8>, k: nat)
    requires |block| == BLOCK && k < BLOCK
    ensures Planar(block)[k] == Low(block[k]) && Planar(block)[k + 16] == High(block[k])
  {
  }

  /** The two bytes that the bytes a and b, at distance 8, become. */
  function LowNibbles(a: bv8, b: bv8): bv8 {
    (a & 0x0F) | (b << 4)
  }

  function HighNibbles(a: bv8, b: bv8): bv8 {
    (a >> 4) | (b & 0xF0)
  }

  lemma {:induction false} ShuffledPair(a: bv8, b: bv8)
    ensures Low(LowNibbles(a, b)) == Low(a) && High(LowNibbles(a, b)) == Low(b)
    ensures Low(HighNibbles(a, b)) == High(a) && High(HighNibbles(a, b)) == High(b)
  {
  }

  /** Read the new way, out holds the values that block holds read the old way. */
  ghost predicate Shuffled(block: seq<bv8>, out: seq<bv8>) {
    |block| == BLOCK && |out| == BLOCK && Planar(out) == Interleaved(block)
  }

  ghost predicate Paired(block: seq<bv8>, out: seq<bv8>, j: nat)
    requires |block| == BLOCK && |out| == BLOCK && j < 8
  {
    && out[2 * j] == LowNibbles(block[j], block[j + 8])
    && out[2 * j + 1] == HighNibbles(block[j], block[j + 8])
  }

  lemma {:induction false} ShuffledByPairs(block: seq<bv8>, out: seq<bv8>)
    requires |block| == BLOCK && |out| == BLOCK
    requires forall j: nat | j < 8 :: Paired(block, out, j)
    ensures Shuffled(block, out)
  {
    hide Planar;
    hide Interleaved;
    hide Paired;
    forall e | 0 <= e < 32 ensures Planar(out)[e] == Interleaved(block)[e] {
      var j := e % 16 / 2;
      ShuffledQuad(block, out, j);
      assert e == 2 * j || e == 2 * j + 1 || e == 2 * j + 16 || e == 2 * j + 17;
    }
  }

  lemma {:induction false} ShuffledQuad(block: seq<bv8>, out: seq<bv8>, j: nat)
    requires |block| == BLOCK && |out| == BLOCK && j < 8 && Paired(block, out, j)
    ensures Planar(out)[2 * j] == Interleaved(block)[2 * j]
    ensures Planar(out)[2 * j + 1] == Interleaved(block)[2 * j + 1]
    ensures Planar(out)[2 * j + 16] == Interleaved(block)[2 * j + 16]
    ensures Planar(out)[2 * j + 17] == Interleaved(block)[2 * j + 17]
  {
    hide Low;
    hide High;
    hide LowNibbles;
    hide HighNibbles;
    hide Planar;
    hide Interleaved;
    PlanarAt(out, 2 * j);
    PlanarAt(out, 2 * j + 1);
    InterleavedAt(block, j);
    InterleavedAt(block, j + 8);
    ShuffledPair(block[j], block[j + 8]);
  }

  /** Different blocks become different blocks, and the same block the same. */
  lemma {:induction false} ShuffleLosesNothing(a: seq<bv8>, b: seq<bv8>, x: seq<bv8>, y: seq<bv8>)
    requires Shuffled(a, x) && Shuffled(b, y)
    ensures a == b <==> x == y
  {
    if x == y {
      InterleavedDetermines(a, b);
    } else if a == b {
      PlanarDetermines(x, y);
    }
  }

  /** The first i bytes are rewritten block by block, the others are not. */
  ghost predicate Rewritten(was: seq<bv8>, now: seq<bv8>, i: nat) {
    && |was| == |now| && i <= |was|
    && now[i..] == was[i..]
    && forall k | 0 <= k && k + BLOCK <= i && k % BLOCK == 0 :: Shuffled(was[k..k + BLOCK], now[k..k + BLOCK])
  }

  lemma {:induction false} NextBlock(was: seq<bv8>, now: seq<bv8>, i: nat, block: seq<bv8>)
    requires Rewritten(was, now, i) && i % BLOCK == 0 && i + BLOCK <= |was|
    requires Shuffled(now[i..i + BLOCK], block)
    ensures Rewritten(was, now[..i] + block + now[i + BLOCK..], i + BLOCK)
  {
    hide Shuffled;
    assert |block| == BLOCK by {
      ShuffledLength(now[i..i + BLOCK], block);
    }
    var next := now[..i] + block + now[i + BLOCK..];
    assert now[i..i + BLOCK] == now[i..][..BLOCK] == was[i..][..BLOCK] == was[i..i + BLOCK];
    assert next[i + BLOCK..] == now[i..][BLOCK..] == was[i..][BLOCK..] == was[i + BLOCK..];
    assert next[i..i + BLOCK] == block;
    forall k | 0 <= k && k + BLOCK <= i + BLOCK && k % BLOCK == 0
      ensures Shuffled(was[k..k + BLOCK], next[k..k + BLOCK])
    {
      if k < i {
        assert k + BLOCK <= i;
        assert next[k..k + BLOCK] == now[k..k + BLOCK];
      }
    }
  }

  lemma {:induction false} ShuffledLength(block: seq<bv8>, out: seq<bv8>)
    requires Shuffled(block, out)
    ensures |out| == BLOCK
  {
  }

  /** The loop of mxfp4.WriteTo: rewrites the buffer in place, block by block. */
  method ShuffleNibbles(bts: array<bv8>)
    requires bts.Length % BLOCK == 0
    modifies bts
    ensures forall k | 0 <= k && k + BLOCK <= bts.Length && k % BLOCK == 0 ::
              Shuffled(old(bts[..])[k..k + BLOCK], bts[k..k + BLOCK])
  {
    hide Shuffled;
    ghost var was := bts[..];
    var tmp := new bv8[BLOCK];
    var i := 0;
    while i < bts.Length
      invariant 0 <= i <= bts.Length && i % BLOCK == 0
      invariant Rewritten(was, bts[..], i)
    {
      ghost var now := bts[..];
      ShuffleBlock(bts, i, tmp);
      assert bts[i..i + BLOCK] == now[i..i + BLOCK];
      NextBlock(was, now, i, tmp[..]);
      CopyBlock(bts, i, tmp);
      i := i + BLOCK;
    }
    assert bts[..] == bts[..bts.Length];
  }

  method ShuffleBlock(bts: array<bv8>, i: nat, tmp: array<bv8>)
    requires i + BLOCK <= bts.Length && tmp.Length == BLOCK && tmp != bts
    modifies tmp
    ensures Shuffled(bts[i..i + BLOCK], tmp[..])
  {
    hide LowNibbles;
    hide HighNibbles;
    hide Shuffled;
    ghost var block := bts[i..i + BLOCK];
    for j := 0 to 8
      invariant bts[i..i + BLOCK] == block
      invariant forall k: nat | k < j :: Paired(block, tmp[..], k)
    {
      var a, b := bts[i + j], bts[i + j + 8];
      assert a == block[j] && b == block[j + 8];
      ghost var was := tmp[..];
      tmp[2 * j] := LowNibbles(a, b);
      tmp[2 * j + 1] := HighNibbles(a, b);
      forall k: nat | k < j + 1 ensures Paired(block, tmp[..], k) {
        assert k < j ==> Paired(block, was, k);
      }
    }
    ShuffledByPairs(block, tmp[..]);
  }

  method CopyBlock(bts: array<bv8>, i: nat, tmp: array<bv8>)
    requires i + BLOCK <= bts.Length && tmp.Length == BLOCK && tmp != bts
    modifies bts
    ensures bts[..] == old(bts[..i]) + old(tmp[..]) + old(bts[i + BLOCK..])
  {
    forall k | 0 <= k < tmp.Length {
      bts[i + k] := tmp[k];
    }
  }
}
