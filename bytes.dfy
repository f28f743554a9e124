/**
  Byte strings, as Foundation's `Data`: what a resource download delivers
  chunk by chunk and what is written to disk.
*/
module Bytes {

  newtype byte = b: int | 0 <= b < 256

  /** The chunks one after the other. */
  function Concat(chunks: seq<seq<byte>>): seq<byte> {
    if chunks == [] then []
    else Concat(chunks[..|chunks| - 1]) + chunks[|chunks| - 1]
  }

  /** Concatenating two batches of chunks is concatenating their concatenations. */
  lemma {:induction false} ConcatSplit(a: seq<seq<byte>>, b: seq<seq<byte>>)
    ensures Concat(a + b) == Concat(a) + Concat(b)
  {
    if b != [] {
      assert (a + b)[..|a + b| - 1] == a + b[..|b| - 1];
      ConcatSplit(a, b[..|b| - 1]);
    } else {
      assert a + b == a;
    }
  }

  /** Every chunk turns up in the concatenation, at the sum of the lengths before it. */
  lemma ConcatContainsChunk(chunks: seq<seq<byte>>, i: nat)
    requires i < |chunks|
    ensures var off := |Concat(chunks[..i])|;
      off + |chunks[i]| <= |Concat(chunks)| && Concat(chunks)[off..off + |chunks[i]|] == chunks[i]
  {
    assert chunks == chunks[..i] + [chunks[i]] + chunks[i + 1..];
    ConcatSplit(chunks[..i] + [chunks[i]], chunks[i + 1..]);
    ConcatSplit(chunks[..i], [chunks[i]]);
    assert Concat([chunks[i]]) == chunks[i] by {
      assert [chunks[i]][..0] == [];
    }
  }

  /** `data += newData` in the download's data callback, once per delivered chunk. */
  method Accumulate(chunks: seq<seq<byte>>) returns (data: seq<byte>)
    ensures data == Concat(chunks)
  {
    data := [];
    var i := 0;
    while i < |chunks|
      invariant 0 <= i <= |chunks|
      invariant data == Concat(chunks[..i])
    {
      assert chunks[..i + 1][..i] == chunks[..i];
      data := data + chunks[i];
      i := i + 1;
    }
    assert chunks[..|chunks|] == chunks;
  }
}
