/**
 * What every chunker returns: chunks with their index, text, byte offsets
 * and chunker-specific metadata, and the summary around them.
 */
module Chunks {
  import opened Text

  /** The chunk size used when the caller passes none (`MaxChunkSize <= 0`). */
  const DefaultMaxChunkSize := 8000

  datatype ChunkType = CodeChunk | MarkdownChunk | ProseChunk | StructuredChunk | UnknownChunk

  datatype Chunk<M> = Chunk(index: int, content: String, start: int, end: int, meta: M)

  datatype ChunkResult<M> = ChunkResult(chunks: seq<Chunk<M>>, totalChunks: int, chunkerUsed: String, originalSize: int)

  /** Chunk `k` has index `k`. */
  predicate Sequential<M>(chunks: seq<Chunk<M>>)
  {
    forall k :: 0 <= k < |chunks| ==> chunks[k].index == k
  }

  /** Each chunk's offsets span exactly its text. */
  predicate Widths<M>(chunks: seq<Chunk<M>>)
  {
    forall k :: 0 <= k < |chunks| ==> chunks[k].end - chunks[k].start == |chunks[k].content|
  }

  /** Chunk `k` starts where chunk `k - 1` ended. */
  predicate Follows<M>(chunks: seq<Chunk<M>>, k: int)
    requires 0 < k < |chunks|
  {
    chunks[k].start == chunks[k - 1].end
  }

  /** Each chunk starts where the previous one ended. */
  predicate Contiguous<M>(chunks: seq<Chunk<M>>)
  {
    forall k :: 0 < k < |chunks| ==> Follows(chunks, k)
  }

  /** The chunks' texts, concatenated in order. */
  function Texts<M>(chunks: seq<Chunk<M>>): String
  {
    if |chunks| == 0 then [] else Texts(chunks[..|chunks| - 1]) + chunks[|chunks| - 1].content
  }

  /** The chunks' texts, one per chunk. */
  function Pieces<M>(chunks: seq<Chunk<M>>): (r: seq<String>)
    ensures |r| == |chunks| && forall k :: 0 <= k < |r| ==> r[k] == chunks[k].content
  {
    seq(|chunks|, k requires 0 <= k < |chunks| => chunks[k].content)
  }

  /** A result with no chunks, as every chunker returns for empty content. */
  function EmptyResult<M>(name: String): (r: ChunkResult<M>)
    ensures r.chunks == [] && r.totalChunks == 0 && r.originalSize == 0 && r.chunkerUsed == name
  {
    ChunkResult([], 0, name, 0)
  }

  /** The chunk size in force: the caller's, or the default when it passes none. */
  function Limit(maxSize: int): (m: int)
    ensures m > 0 && (maxSize > 0 ==> m == maxSize) && (maxSize <= 0 ==> m == DefaultMaxChunkSize)
  {
    if maxSize <= 0 then DefaultMaxChunkSize else maxSize
  }

  /** Chunks of `pieces` laid end to end from `offset`, all with `meta`. */
  function Lay<M>(pieces: seq<String>, offset: int, meta: M): (r: seq<Chunk<M>>)
    ensures |r| == |pieces|
  {
    if |pieces| == 0 then []
    else [Chunk(0, pieces[0], offset, offset + |pieces[0]|, meta)] + Lay(pieces[1..], offset + |pieces[0]|, meta)
  }

  /** Laid texts are contiguous from `offset` and keep their order. */
  lemma {:induction false} LaySound<M>(pieces: seq<String>, offset: int, meta: M)
    ensures var r := Lay(pieces, offset, meta);
      && Contiguous(r) && Widths(r)
      && (|r| > 0 ==> r[0].start == offset)
      && forall k :: 0 <= k < |r| ==> r[k].content == pieces[k] && r[k].start >= offset && r[k].meta == meta
    decreases |pieces|
  {
    if |pieces| > 0 {
      LaySound(pieces[1..], offset + |pieces[0]|, meta);
      var r := Lay(pieces, offset, meta);
      var rest := Lay(pieces[1..], offset + |pieces[0]|, meta);
      assert forall k :: 1 <= k < |r| ==> r[k] == rest[k - 1];
      forall k | 0 < k < |r| ensures Follows(r, k) {
        if k > 1 {
          assert Follows(rest, k - 1);
        }
      }
    }
  }

  /** Chunks of `pieces` laid from `offset`, all with `meta`. */
  method LayOut<M>(pieces: seq<String>, offset: int, meta: M) returns (chunks: seq<Chunk<M>>)
    ensures chunks == Lay(pieces, offset, meta)
  {
    assert pieces[0..] == pieces;
    assert pieces[|pieces|..] == [];
    hide Lay;
    chunks := [];
    var at := offset;
    for i := 0 to |pieces|
      invariant chunks + Lay(pieces[i..], at, meta) == Lay(pieces, offset, meta)
    {
      LayStep(pieces, i, at, meta);
      chunks := chunks + [Chunk(0, pieces[i], at, at + |pieces[i]|, meta)];
      at := at + |pieces[i]|;
    }
  }

  lemma LayStep<M>(pieces: seq<String>, i: int, at: int, meta: M)
    requires 0 <= i < |pieces|
    ensures Lay(pieces[i..], at, meta) == [Chunk(0, pieces[i], at, at + |pieces[i]|, meta)] + Lay(pieces[i + 1..], at + |pieces[i]|, meta)
  {
    assert pieces[i..][1..] == pieces[i + 1..];
  }

  /** The chunks with `Index` set to their position. */
  function Numbered<M>(chunks: seq<Chunk<M>>): (r: seq<Chunk<M>>)
    ensures |r| == |chunks| && Sequential(r)
    ensures forall k :: 0 <= k < |r| ==> r[k] == chunks[k].(index := k)
  {
    seq(|chunks|, k requires 0 <= k < |chunks| => chunks[k].(index := k))
  }

  lemma NumberedAppend<M>(raw: seq<Chunk<M>>, c: Chunk<M>)
    ensures Numbered(raw + [c]) == Numbered(raw) + [c.(index := |raw|)]
  {
  }

  /** Appends `sub` to the numbered chunks, each numbered by its position. */
  method AppendNumbered<M>(chunks: seq<Chunk<M>>, ghost raw: seq<Chunk<M>>, sub: seq<Chunk<M>>) returns (r: seq<Chunk<M>>)
    requires chunks == Numbered(raw)
    ensures r == Numbered(raw + sub)
  {
    r := chunks;
    for j := 0 to |sub|
      invariant r == Numbered(raw + sub[..j])
    {
      assert raw + sub[..j + 1] == (raw + sub[..j]) + [sub[j]];
      NumberedAppend(raw + sub[..j], sub[j]);
      r := r + [sub[j].(index := |r|)];
    }
    assert sub[..|sub|] == sub;
  }
}
