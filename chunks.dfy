/** Recorded audio as bytes: the chunks a recorder emits and the single
    payload built from them ("new Blob(audioChunks, ...)"). */
module Chunks {

  newtype Byte = b: int | 0 <= b < 256

  /** One "dataavailable" chunk; its `size` is its length in bytes. */
  type Chunk = seq<Byte>

  /** MIME type the payload is tagged with before upload. */
  const WebM: string := "audio/webm"

  /** A finished payload: the bytes and the MIME type given to the Blob. */
  datatype Blob = Blob(data: seq<Byte>, mimeType: string)

  /** Sum of the chunk sizes. */
  function TotalSize(chunks: seq<Chunk>): nat
  {
    if chunks == [] then 0 else |chunks[0]| + TotalSize(chunks[1..])
  }

  /** The chunks joined end to end in list order, as a Blob built from a
      list of parts holds them. */
  function Concat(chunks: seq<Chunk>): (r: seq<Byte>)
    ensures |r| == TotalSize(chunks)
  {
    if chunks == [] then [] else chunks[0] + Concat(chunks[1..])
  }

  /** Building from two lists of parts is building from each and joining. */
  lemma {:induction false} ConcatSplit(a: seq<Chunk>, b: seq<Chunk>)
    ensures Concat(a + b) == Concat(a) + Concat(b)
  {
    if a == [] {
      assert a + b == b;
    } else {
      assert (a + b)[1..] == a[1..] + b;
      ConcatSplit(a[1..], b);
    }
  }

  /** Appending a chunk to the list appends its bytes to the payload. */
  lemma ConcatAppend(chunks: seq<Chunk>, c: Chunk)
    ensures Concat(chunks + [c]) == Concat(chunks) + c
  {
    ConcatSplit(chunks, [c]);
    assert [c][1..] == [];
  }

  /** Every chunk sits in the payload, whole, right after the bytes of the
      chunks before it: nothing is reordered, dropped or duplicated. */
  lemma ChunkInPlace(chunks: seq<Chunk>, i: nat)
    requires i < |chunks|
    ensures Concat(chunks) == Concat(chunks[..i]) + chunks[i] + Concat(chunks[i + 1..])
    ensures Concat(chunks)[TotalSize(chunks[..i])..TotalSize(chunks[..i]) + |chunks[i]|] == chunks[i]
  {
    assert chunks == chunks[..i] + ([chunks[i]] + chunks[i + 1..]);
    ConcatSplit(chunks[..i], [chunks[i]] + chunks[i + 1..]);
    assert ([chunks[i]] + chunks[i + 1..])[1..] == chunks[i + 1..];
  }

  /** Empty chunks contribute nothing: dropping them (as the recorder does)
      leaves the payload unchanged. */
  function NonEmpty(chunks: seq<Chunk>): (r: seq<Chunk>)
    ensures |r| <= |chunks|
    ensures forall i :: 0 <= i < |r| ==> |r[i]| > 0
  {
    if chunks == [] then []
    else if |chunks[0]| > 0 then [chunks[0]] + NonEmpty(chunks[1..])
    else NonEmpty(chunks[1..])
  }

  lemma {:induction false} NonEmptySameBytes(chunks: seq<Chunk>)
    ensures Concat(NonEmpty(chunks)) == Concat(chunks)
  {
    if chunks != [] {
      NonEmptySameBytes(chunks[1..]);
      if |chunks[0]| > 0 {
        ConcatSplit([chunks[0]], NonEmpty(chunks[1..]));
        assert [chunks[0]][1..] == [];
      } else {
        assert chunks[0] == [];
      }
    }
  }

  lemma {:induction false} NonEmptySplit(a: seq<Chunk>, b: seq<Chunk>)
    ensures NonEmpty(a + b) == NonEmpty(a) + NonEmpty(b)
  {
    if a == [] {
      assert a + b == b;
    } else {
      assert (a + b)[0] == a[0];
      assert (a + b)[1..] == a[1..] + b;
      NonEmptySplit(a[1..], b);
    }
  }
}
