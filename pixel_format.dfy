/**
 * The BGRA -> RGBA pixel-format conversion `bgra_to_rgba`.
 *
 * Both architecture variants load 16 bytes, shuffle them with the same mask and
 * store them back, for every chunk of `chunks_exact_mut(16)`. A trailing run of
 * fewer than 16 bytes is not visited and keeps its bytes.
 */
module PixelFormat {
  import opened Types

  /** Output byte `i` of a 16-byte chunk is input byte `Mask[i]` of the same chunk. */
  const Mask: seq<nat> := [2, 1, 0, 3, 6, 5, 4, 7, 10, 9, 8, 11, 14, 13, 12, 15]

  /** The mask keeps every byte inside its own chunk and undoes itself. */
  lemma MaskFacts(x: nat)
    requires x < 16
    ensures Mask[x] < 16 && Mask[Mask[x]] == x
  {
  }

  /** End of the prefix that `chunks_exact_mut(16)` splits into full chunks. */
  function ChunkedLength(n: nat): nat
  {
    n - n % 16
  }

  /** Index of the input byte that the shuffle moves to position `i`. */
  function ShuffleSource(i: nat): nat
  {
    i - i % 16 + Mask[i % 16]
  }

  /** Position `x` of chunk `c`: its offset in the chunk is `x`. */
  lemma ChunkOffset(c: nat, x: nat)
    requires x < 16
    ensures (16 * c + x) % 16 == x
    ensures (16 * c + x) - (16 * c + x) % 16 == 16 * c
  {
  }

  lemma ShuffleSourceInChunk(i: nat, n: nat)
    requires i < ChunkedLength(n)
    ensures ShuffleSource(i) < ChunkedLength(n)
    ensures ShuffleSource(i) - ShuffleSource(i) % 16 == i - i % 16
    ensures ShuffleSource(i) % 16 == Mask[i % 16]
  {
  }

  /** The buffer after `bgra_to_rgba`: every full chunk shuffled by `Mask`, the tail untouched. */
  function Converted(s: seq<byte>): (r: seq<byte>)
    ensures |r| == |s|
  {
    seq(|s|, i requires 0 <= i < |s| =>
      if i < ChunkedLength(|s|) then (ShuffleSourceInChunk(i, |s|); s[ShuffleSource(i)]) else s[i])
  }

  /** Byte `i` of full chunk `c` comes from byte `Mask[i - 16 * c]` of the same chunk. */
  lemma ConvertedInChunk(s: seq<byte>, c: nat, i: nat)
    requires 16 * c <= i < 16 * c + 16 <= |s|
    ensures Converted(s)[i] == s[16 * c + Mask[i - 16 * c]]
  {
    ChunkOffset(c, i - 16 * c);
    assert 16 * c + 16 <= ChunkedLength(|s|);
  }

  /** Pixel `k` of a full chunk has its bytes 0 and 2 swapped and bytes 1 and 3 kept. */
  lemma ConvertedPixel(s: seq<byte>, k: nat)
    requires 4 * k + 4 <= ChunkedLength(|s|)
    ensures |Converted(s)| == |s|
    ensures Converted(s)[4 * k] == s[4 * k + 2]
    ensures Converted(s)[4 * k + 1] == s[4 * k + 1]
    ensures Converted(s)[4 * k + 2] == s[4 * k]
    ensures Converted(s)[4 * k + 3] == s[4 * k + 3]
  {
    var c, m := k / 4, k % 4;
    assert 4 * k == 16 * c + 4 * m;
    ChunkOffset(c, 4 * m);
    ChunkOffset(c, 4 * m + 1);
    ChunkOffset(c, 4 * m + 2);
    ChunkOffset(c, 4 * m + 3);
  }

  /** The `len % 16` trailing bytes are not touched. */
  lemma ConvertedTail(s: seq<byte>, i: nat)
    requires ChunkedLength(|s|) <= i < |s|
    ensures Converted(s)[i] == s[i]
  {
  }

  /** Byte `i` of a buffer converted twice is byte `i` of the buffer. */
  lemma ConvertedTwiceAt(s: seq<byte>, i: nat)
    requires i < |s|
    ensures Converted(Converted(s))[i] == s[i]
  {
    var once := Converted(s);
    if i < ChunkedLength(|s|) {
      ShuffleSourceInChunk(i, |s|);
      var j := ShuffleSource(i);
      ShuffleSourceInChunk(j, |s|);
      MaskFacts(i % 16);
      assert ShuffleSource(j) == i;
      assert once[j] == s[i];
    } else {
      ConvertedTail(once, i);
      ConvertedTail(s, i);
    }
  }

  /** Converting twice gives back the original buffer. */
  lemma ConvertedInvolutive(s: seq<byte>)
    ensures Converted(Converted(s)) == s
  {
    forall i | 0 <= i < |s|
      ensures Converted(Converted(s))[i] == s[i]
    {
      ConvertedTwiceAt(s, i);
    }
  }

  /** Shuffling chunk `c` of a buffer that still holds the original bytes there converts that chunk. */
  lemma ChunkConverted(original: seq<byte>, before: seq<byte>, after: seq<byte>, c: nat)
    requires |before| == |after| == |original| && 16 * c + 16 <= |original|
    requires forall i :: 16 * c <= i < |original| ==> before[i] == original[i]
    requires forall i :: 16 * c <= i < 16 * c + 16 ==> after[i] == before[16 * c + Mask[i - 16 * c]]
    ensures forall i :: 16 * c <= i < 16 * c + 16 ==> after[i] == Converted(original)[i]
  {
    forall i | 16 * c <= i < 16 * c + 16
      ensures after[i] == Converted(original)[i]
    {
      MaskFacts(i - 16 * c);
      ConvertedInChunk(original, c, i);
    }
  }

  /** One chunk of the loop: load 16 bytes, shuffle them by `Mask`, store them back. */
  method ShuffleChunk(data: array<byte>, start: nat)
    requires start + 16 <= data.Length
    modifies data
    ensures forall i :: start <= i < start + 16 ==> data[i] == old(data[start + Mask[i - start]])
    ensures forall i :: 0 <= i < data.Length && !(start <= i < start + 16) ==> data[i] == old(data[i])
  {
    var chunk := data[start..start + 16];
    var j := 0;
    while j < 16
      invariant 0 <= j <= 16
      invariant forall i :: start <= i < start + j ==> data[i] == chunk[Mask[i - start]]
      invariant forall i :: 0 <= i < data.Length && !(start <= i < start + j) ==> data[i] == old(data[i])
    {
      data[start + j] := chunk[Mask[j]];
      j := j + 1;
    }
  }

  /** `bgra_to_rgba`: converts `data` in place, one full 16-byte chunk at a time. */
  method BgraToRgba(data: array<byte>)
    modifies data
    ensures data[..] == Converted(old(data[..]))
  {
    ghost var original := data[..];
    var full := data.Length / 16;
    assert ChunkedLength(data.Length) == 16 * full;
    var start, chunks := 0, 0;
    while chunks < full
      invariant start == 16 * chunks && chunks <= full
      invariant forall i :: 0 <= i < start ==> data[i] == Converted(original)[i]
      invariant forall i :: start <= i < data.Length ==> data[i] == original[i]
    {
      ghost var before := data[..];
      ShuffleChunk(data, start);
      ChunkConverted(original, before, data[..], chunks);
      start, chunks := start + 16, chunks + 1;
    }
    assert data[..] == Converted(original);
  }
}
