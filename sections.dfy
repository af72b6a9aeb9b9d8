/**
 * The outer loop shared by the HCL, protobuf and LaTeX chunkers: each unit
 * (block, definition, section) becomes one chunk when it fits, is split by
 * the packer when it is larger than `maxSize`, and is dropped when blank;
 * the running offset advances by the unit's length either way.
 */
module Sections {
  import opened Text
  import opened Chunks
  import opened Packing

  /**
   * A unit of the source: its text, the pieces the splitter packs when the
   * text is too large, the separator between them, and its metadata.
   */
  datatype Unit<M> = Unit(content: String, pieces: seq<String>, sep: String, meta: M)

  /** The pieces, joined, are no longer than the unit. */
  predicate Fitting<M>(u: Unit<M>)
  {
    |Join(u.pieces, u.sep)| <= |u.content|
  }

  /** The pieces, joined, are the unit's text (a line split). */
  predicate Exact<M>(u: Unit<M>)
  {
    Join(u.pieces, u.sep) == u.content
  }

  predicate AllFitting<M>(units: seq<Unit<M>>)
  {
    forall i :: 0 <= i < |units| ==> Fitting(units[i])
  }

  predicate AllExact<M>(units: seq<Unit<M>>)
  {
    forall i :: 0 <= i < |units| ==> Exact(units[i])
  }

  /** The spans one unit contributes when it starts at `offset`. */
  function UnitSpans<M>(u: Unit<M>, maxSize: int, offset: int): seq<Span>
  {
    if |u.content| > maxSize then Pack(u.pieces, u.sep, maxSize, offset)
    else if TrimSpace(u.content) != [] then [Span(u.content, offset, offset + |u.content|)]
    else []
  }

  /** `spans` as chunks numbered from `count`, all with `meta`. */
  function Number<M>(spans: seq<Span>, count: int, meta: M): (r: seq<Chunk<M>>)
    ensures |r| == |spans|
    ensures forall k :: 0 <= k < |r| ==> r[k] == Chunk(count + k, spans[k].content, spans[k].start, spans[k].end, meta)
  {
    seq(|spans|, k requires 0 <= k < |spans| => Chunk(count + k, spans[k].content, spans[k].start, spans[k].end, meta))
  }

  /** The chunks of `units`, the first starting at `offset` and numbered from `count`. */
  function Assemble<M>(units: seq<Unit<M>>, maxSize: int, offset: int, count: int): seq<Chunk<M>>
  {
    if |units| == 0 then []
    else
      var cs := Number(UnitSpans(units[0], maxSize, offset), count, units[0].meta);
      cs + Assemble(units[1..], maxSize, offset + |units[0].content|, count + |cs|)
  }

  /** The units' texts, end to end: the text the running offset counts through. */
  function Whole<M>(units: seq<Unit<M>>): String
  {
    if |units| == 0 then [] else units[0].content + Whole(units[1..])
  }

  // ---------------------------------------------------------------------
  // Properties

  /** Chunk `k - 1` ends no later than chunk `k` starts. */
  predicate Before<M>(chunks: seq<Chunk<M>>, k: int)
    requires 0 < k < |chunks|
  {
    chunks[k - 1].end <= chunks[k].start
  }

  /**
   * Chunk `k` has index `count + k`, its offsets span its text within
   * `[lo, hi]`, and the chunks do not overlap and come in order.
   */
  predicate Laid<M>(chunks: seq<Chunk<M>>, lo: int, hi: int, count: int)
  {
    && (forall k :: 0 <= k < |chunks| ==> chunks[k].index == count + k)
    && (forall k :: 0 <= k < |chunks| ==>
          lo <= chunks[k].start && chunks[k].end == chunks[k].start + |chunks[k].content| && chunks[k].end <= hi)
    && (forall k :: 0 < k < |chunks| ==> Before(chunks, k))
  }

  /** Each chunk is the text found at its own offsets in `text`, which begins at `lo`. */
  predicate TextAt<M>(chunks: seq<Chunk<M>>, text: String, lo: int)
  {
    forall k :: 0 <= k < |chunks| ==> ChunkAt(chunks[k], text, lo)
  }

  /** `c` holds the text at its offsets in `text`, which begins at offset `lo`. */
  predicate ChunkAt<M>(c: Chunk<M>, text: String, lo: int)
  {
    lo <= c.start <= c.end <= lo + |text| && text[c.start - lo..c.end - lo] == c.content
  }

  /** A chunk is within `maxSize`, or it is one piece of some unit. */
  predicate Fits<M>(c: Chunk<M>, units: seq<Unit<M>>, maxSize: int)
  {
    |c.content| <= maxSize || exists i :: 0 <= i < |units| && c.content in units[i].pieces
  }

  predicate AllFit<M>(chunks: seq<Chunk<M>>, units: seq<Unit<M>>, maxSize: int)
  {
    forall k :: 0 <= k < |chunks| ==> Fits(chunks[k], units, maxSize)
  }

  lemma LaidAppend<M>(a: seq<Chunk<M>>, b: seq<Chunk<M>>, lo: int, mid: int, hi: int, count: int)
    requires Laid(a, lo, mid, count) && Laid(b, mid, hi, count + |a|) && lo <= mid <= hi
    ensures Laid(a + b, lo, hi, count)
  {
    var ab := a + b;
    forall k | 0 < k < |ab| ensures Before(ab, k) {
      if k < |a| {
        assert Before(a, k);
      } else if k > |a| {
        assert Before(b, k - |a|);
      }
    }
  }

  lemma TextAtAppend<M>(a: seq<Chunk<M>>, b: seq<Chunk<M>>, t1: String, t2: String, lo: int)
    requires TextAt(a, t1, lo) && TextAt(b, t2, lo + |t1|)
    ensures TextAt(a + b, t1 + t2, lo)
  {
    var ab := a + b;
    var t := t1 + t2;
    forall k | 0 <= k < |ab| ensures ChunkAt(ab[k], t, lo) {
      if k < |a| {
        assert t[a[k].start - lo..a[k].end - lo] == t1[a[k].start - lo..a[k].end - lo];
      } else {
        var c := b[k - |a|];
        assert t[c.start - lo..c.end - lo] == t2[c.start - lo - |t1|..c.end - lo - |t1|];
      }
    }
  }

  lemma FitsGrow<M>(chunks: seq<Chunk<M>>, units: seq<Unit<M>>, u: Unit<M>, maxSize: int)
    requires AllFit(chunks, units, maxSize)
    ensures AllFit(chunks, [u] + units, maxSize)
  {
    forall k | 0 <= k < |chunks| ensures Fits(chunks[k], [u] + units, maxSize) {
      if |chunks[k].content| > maxSize {
        var i :| 0 <= i < |units| && chunks[k].content in units[i].pieces;
        assert ([u] + units)[i + 1] == units[i];
      }
    }
  }

  /** Spans located in `text`, `gap` apart, numbered as chunks. */
  lemma NumberLaid<M>(spans: seq<Span>, count: int, meta: M, text: String, lo: int, hi: int, gap: nat)
    requires AllLocated(spans, text, lo) && Gapped(spans, gap) && lo + |text| <= hi
    ensures Laid(Number(spans, count, meta), lo, hi, count)
  {
    var cs := Number(spans, count, meta);
    forall k | 0 < k < |cs| ensures Before(cs, k) {
      assert GapAt(spans, k, gap);
    }
    forall k | 0 <= k < |cs| ensures lo <= cs[k].start && cs[k].end == cs[k].start + |cs[k].content| && cs[k].end <= hi {
      assert Located(spans[k], text, lo);
    }
  }

  lemma NumberText<M>(spans: seq<Span>, count: int, meta: M, text: String, lo: int)
    requires AllLocated(spans, text, lo)
    ensures TextAt(Number(spans, count, meta), text, lo)
  {
    var cs := Number(spans, count, meta);
    forall k | 0 <= k < |cs| ensures ChunkAt(cs[k], text, lo) {
      assert Located(spans[k], text, lo);
    }
  }

  lemma NumberFits<M>(spans: seq<Span>, count: int, meta: M, u: Unit<M>, maxSize: int)
    requires AllFits(spans, u.pieces, maxSize)
    ensures AllFit(Number(spans, count, meta), [u], maxSize)
  {
    var cs := Number(spans, count, meta);
    forall k | 0 <= k < |cs| ensures Fits(cs[k], [u], maxSize) {
      assert Packing.Fits(spans[k].content, u.pieces, maxSize);
      assert [u][0] == u;
    }
  }

  /** The chunks of one unit lie within it, numbered from `count`. */
  lemma UnitLaid<M>(u: Unit<M>, maxSize: int, offset: int, count: int)
    requires Fitting(u)
    ensures Laid(Number(UnitSpans(u, maxSize, offset), count, u.meta), offset, offset + |u.content|, count)
  {
    if |u.content| > maxSize {
      PackSound(u.pieces, u.sep, maxSize, offset);
      PackGapped(u.pieces, u.sep, maxSize, offset);
      NumberLaid(Pack(u.pieces, u.sep, maxSize, offset), count, u.meta, Join(u.pieces, u.sep), offset, offset + |u.content|, |u.sep|);
    }
  }

  /** The chunks of one unit whose pieces rebuild it are its text at their offsets. */
  lemma UnitText<M>(u: Unit<M>, maxSize: int, offset: int, count: int)
    requires Exact(u)
    ensures TextAt(Number(UnitSpans(u, maxSize, offset), count, u.meta), u.content, offset)
  {
    if |u.content| > maxSize {
      PackSound(u.pieces, u.sep, maxSize, offset);
      NumberText(Pack(u.pieces, u.sep, maxSize, offset), count, u.meta, u.content, offset);
    } else {
      assert u.content[0..|u.content|] == u.content;
    }
  }

  lemma UnitFits<M>(u: Unit<M>, maxSize: int, offset: int, count: int)
    ensures AllFit(Number(UnitSpans(u, maxSize, offset), count, u.meta), [u], maxSize)
  {
    if |u.content| > maxSize {
      PackSound(u.pieces, u.sep, maxSize, offset);
      NumberFits(Pack(u.pieces, u.sep, maxSize, offset), count, u.meta, u, maxSize);
    }
  }

  lemma AssembleCons<M>(units: seq<Unit<M>>, maxSize: int, offset: int, count: int)
    requires |units| > 0
    ensures var cs := Number(UnitSpans(units[0], maxSize, offset), count, units[0].meta);
      Assemble(units, maxSize, offset, count) == cs + Assemble(units[1..], maxSize, offset + |units[0].content|, count + |cs|)
  {
  }

  lemma AssembleSplit<M>(units: seq<Unit<M>>, u: Unit<M>, tail: seq<Unit<M>>, maxSize: int, offset: int, count: int,
                         cs: seq<Chunk<M>>, rest: seq<Chunk<M>>)
    requires |units| > 0 && u == units[0] && tail == units[1..]
    requires cs == Number(UnitSpans(u, maxSize, offset), count, u.meta)
    requires rest == Assemble(tail, maxSize, offset + |u.content|, count + |cs|)
    ensures Assemble(units, maxSize, offset, count) == cs + rest
  {
    hide Number, UnitSpans;
  }

  /** Predicate form of `AssembleLaid`'s conclusion, for its induction. */
  predicate AssembledLaid<M>(units: seq<Unit<M>>, maxSize: int, offset: int, count: int)
  {
    Laid(Assemble(units, maxSize, offset, count), offset, offset + |Whole(units)|, count)
  }

  /**
   * The chunks are numbered from `count` in order, each one's offsets span
   * its text, they do not overlap, and all lie within the units' extent.
   */
  lemma {:induction false} AssembleLaid<M>(units: seq<Unit<M>>, maxSize: int, offset: int, count: int)
    requires AllFitting(units)
    ensures AssembledLaid(units, maxSize, offset, count)
    decreases |units|
  {
    hide Number, UnitSpans;
    if |units| > 0 {
      var u := units[0];
      var cs := Number(UnitSpans(u, maxSize, offset), count, u.meta);
      var next := offset + |u.content|;
      assert Fitting(u);
      AssembleLaid(units[1..], maxSize, next, count + |cs|);
      UnitLaid(u, maxSize, offset, count);
      AssembleCons(units, maxSize, offset, count);
      LaidAppend(cs, Assemble(units[1..], maxSize, next, count + |cs|), offset, next, next + |Whole(units[1..])|, count);
    }
  }

  predicate AssembledText<M>(units: seq<Unit<M>>, maxSize: int, offset: int, count: int)
  {
    TextAt(Assemble(units, maxSize, offset, count), Whole(units), offset)
  }

  /** When every unit's pieces rebuild it, each chunk is the text at its offsets. */
  lemma {:induction false} AssembleText<M>(units: seq<Unit<M>>, maxSize: int, offset: int, count: int)
    requires AllExact(units)
    ensures AssembledText(units, maxSize, offset, count)
    decreases |units|
  {
    hide Number, UnitSpans;
    if |units| > 0 {
      var u := units[0];
      var cs := Number(UnitSpans(u, maxSize, offset), count, u.meta);
      var next := offset + |u.content|;
      AssembleText(units[1..], maxSize, next, count + |cs|);
      assert Exact(u);
      UnitText(u, maxSize, offset, count);
      AssembleCons(units, maxSize, offset, count);
      TextAtAppend(cs, Assemble(units[1..], maxSize, next, count + |cs|), u.content, Whole(units[1..]), offset);
    }
  }

  predicate AssembledFit<M>(units: seq<Unit<M>>, maxSize: int, offset: int, count: int)
  {
    AllFit(Assemble(units, maxSize, offset, count), units, maxSize)
  }

  /** A chunk exceeds `maxSize` only when it is a single piece of its unit. */
  lemma {:induction false} AssembleFits<M>(units: seq<Unit<M>>, maxSize: int, offset: int, count: int)
    ensures AssembledFit(units, maxSize, offset, count)
    decreases |units|
  {
    hide Number, UnitSpans;
    if |units| > 0 {
      var u := units[0];
      var cs := Number(UnitSpans(u, maxSize, offset), count, u.meta);
      var next := offset + |u.content|;
      var rest := Assemble(units[1..], maxSize, next, count + |cs|);
      AssembleFits(units[1..], maxSize, next, count + |cs|);
      UnitFits(u, maxSize, offset, count);
      AssembleCons(units, maxSize, offset, count);
      FitsGrow(rest, units[1..], u, maxSize);
      assert [u] + units[1..] == units;
      forall k | 0 <= k < |cs| ensures Fits(cs[k], units, maxSize) {
        if |cs[k].content| > maxSize {
          assert Fits(cs[k], [u], maxSize);
          assert units[0] == u;
        }
      }
    }
  }

  // ---------------------------------------------------------------------
  // The loops

  /** Append `spans` to `chunks`, each indexed by the length before it is appended. */
  method AppendSpans<M>(chunks: seq<Chunk<M>>, spans: seq<Span>, meta: M) returns (r: seq<Chunk<M>>)
    ensures r == chunks + Number(spans, |chunks|, meta)
  {
    r := chunks;
    var j := 0;
    while j < |spans|
      invariant 0 <= j <= |spans|
      invariant r == chunks + Number(spans[..j], |chunks|, meta)
    {
      assert Number(spans[..j + 1], |chunks|, meta) == Number(spans[..j], |chunks|, meta) + [Chunk(|r|, spans[j].content, spans[j].start, spans[j].end, meta)];
      r := r + [Chunk(|r|, spans[j].content, spans[j].start, spans[j].end, meta)];
      j := j + 1;
    }
    assert spans[..j] == spans;
  }

  /** One unit of the loop: split it, keep it whole, or drop it. */
  method EmitUnit<M>(chunks: seq<Chunk<M>>, u: Unit<M>, maxSize: int, offset: int) returns (r: seq<Chunk<M>>)
    ensures r == chunks + Number(UnitSpans(u, maxSize, offset), |chunks|, u.meta)
  {
    hide Pack, TrimSpace;
    if |u.content| > maxSize {
      var spans := PackPieces(u.pieces, u.sep, maxSize, offset);
      r := AppendSpans(chunks, spans, u.meta);
    } else if TrimSpace(u.content) != [] {
      r := chunks + [Chunk(|chunks|, u.content, offset, offset + |u.content|, u.meta)];
      assert Number(UnitSpans(u, maxSize, offset), |chunks|, u.meta) == [Chunk(|chunks|, u.content, offset, offset + |u.content|, u.meta)];
    } else {
      r := chunks;
      assert Number(UnitSpans(u, maxSize, offset), |chunks|, u.meta) == [];
    }
  }

  lemma SpliceStep<T>(before: seq<T>, nu: seq<T>, rest: seq<T>, now: seq<T>, tail: seq<T>, whole: seq<T>)
    requires before + tail == whole && tail == nu + rest && now == before + nu
    ensures now + rest == whole
  {
    assert before + (nu + rest) == (before + nu) + rest;
  }

  lemma DropNext<T>(s: seq<T>, i: int, tail: seq<T>)
    requires 0 <= i < |s| && tail == s[i + 1..]
    ensures s[i..][1..] == tail && s[i..][0] == s[i]
  {
  }

  /** One turn of the loop: emitting unit `i` moves its chunks from the pending ones to the emitted ones. */
  lemma EmitStep<M>(units: seq<Unit<M>>, i: int, todo: seq<Unit<M>>, tail: seq<Unit<M>>, maxSize: int, offset: int, next: int,
                    before: seq<Chunk<M>>, chunks: seq<Chunk<M>>, whole: seq<Chunk<M>>)
    requires 0 <= i < |units| && todo == units[i..] && tail == units[i + 1..] && next == offset + |units[i].content|
    requires before + Assemble(todo, maxSize, offset, |before|) == whole
    requires chunks == before + Number(UnitSpans(units[i], maxSize, offset), |before|, units[i].meta)
    ensures chunks + Assemble(tail, maxSize, next, |chunks|) == whole
  {
    hide Assemble, Number, UnitSpans;
    DropNext(units, i, tail);
    assert todo[0] == units[i] && todo[1..] == tail;
    AssembleCons(todo, maxSize, offset, |before|);
    var nu := Number(UnitSpans(units[i], maxSize, offset), |before|, units[i].meta);
    var rest := Assemble(tail, maxSize, next, |chunks|);
    SpliceStep(before, nu, rest, chunks, Assemble(todo, maxSize, offset, |before|), whole);
  }

  /** The loop over the units, from offset 0. */
  method EmitUnits<M>(units: seq<Unit<M>>, maxSize: int) returns (chunks: seq<Chunk<M>>)
    ensures chunks == Assemble(units, maxSize, 0, 0)
  {
    chunks := [];
    var offset := 0;
    var i := 0;
    ghost var todo := units;
    while i < |units|
      invariant 0 <= i <= |units| && todo == units[i..]
      invariant chunks + Assemble(todo, maxSize, offset, |chunks|) == Assemble(units, maxSize, 0, 0)
    {
      ghost var tail := units[i + 1..];
      var next := offset + |units[i].content|;
      var before := chunks;
      chunks := EmitUnit(chunks, units[i], maxSize, offset);
      EmitStep(units, i, todo, tail, maxSize, offset, next, before, chunks, Assemble(units, maxSize, 0, 0));
      offset := next;
      todo := tail;
      i := i + 1;
    }
    assert chunks + [] == chunks;
  }


  // ---------------------------------------------------------------------
  // Units split by lines

  /** A unit that the splitter cuts into its lines. */
  function LineUnit<M>(content: String, meta: M): Unit<M>
  {
    Unit(content, Split(content, "\n"), "\n", meta)
  }

  predicate LineUnits<M>(units: seq<Unit<M>>)
  {
    forall k :: 0 <= k < |units| ==> units[k].pieces == Split(units[k].content, "\n") && units[k].sep == "\n"
  }

  /**
   * For units split by lines, the chunks are numbered from 0, each is the
   * text at its own offsets in the units' texts laid end to end, they come in
   * order without overlap, and one exceeds `maxSize` only when it is a
   * single line of its unit.
   */
  lemma AssembleSound<M>(units: seq<Unit<M>>, maxSize: int)
    requires LineUnits(units)
    ensures var cs := Assemble(units, maxSize, 0, 0);
      && Sequential(cs) && Widths(cs)
      && Laid(cs, 0, |Whole(units)|, 0)
      && TextAt(cs, Whole(units), 0)
      && forall k :: 0 <= k < |cs| ==>
           (|cs[k].content| <= maxSize || exists i :: 0 <= i < |units| && cs[k].content in Split(units[i].content, "\n"))
  {
    forall k | 0 <= k < |units| ensures Exact(units[k]) && Fitting(units[k]) {
      JoinSplit(units[k].content, "\n");
    }
    AssembleLaid(units, maxSize, 0, 0);
    AssembleText(units, maxSize, 0, 0);
    AssembleFits(units, maxSize, 0, 0);
    var cs := Assemble(units, maxSize, 0, 0);
    forall k | 0 <= k < |cs|
      ensures |cs[k].content| <= maxSize || exists i :: 0 <= i < |units| && cs[k].content in Split(units[i].content, "\n")
    {
      assert Fits(cs[k], units, maxSize);
    }
  }

  // ---------------------------------------------------------------------
  // The line fallback: a whole text packed by lines

  /** The fallback paths: the text's lines packed with `"\n"` from offset 0, numbered from 0, all with `meta`. */
  function LineChunks<M>(text: String, maxSize: int, meta: M): seq<Chunk<M>>
  {
    Number(Pack(Split(text, "\n"), "\n", maxSize, 0), 0, meta)
  }

  lemma NumberPieces<M>(spans: seq<Span>, count: int, meta: M)
    ensures Pieces(Number(spans, count, meta)) == Contents(spans)
    decreases |spans|
  {
    if |spans| > 0 {
      var init := spans[..|spans| - 1];
      NumberPieces(init, count, meta);
      assert Pieces(Number(spans, count, meta)) == Pieces(Number(init, count, meta)) + [spans[|spans| - 1].content];
    }
  }

  /**
   * The fallback chunks, joined with `"\n"`, are the text again; they are
   * numbered from 0, each is the text at its own offsets, they come in order
   * without overlap, and one exceeds `maxSize` only when it is a single line.
   */
  lemma LineChunksSound<M>(text: String, maxSize: int, meta: M)
    ensures var cs := LineChunks(text, maxSize, meta);
      && |cs| > 0
      && Join(Pieces(cs), "\n") == text
      && Laid(cs, 0, |text|, 0)
      && TextAt(cs, text, 0)
      && forall k :: 0 <= k < |cs| ==> |cs[k].content| <= maxSize || cs[k].content in Split(text, "\n")
  {
    var lines := Split(text, "\n");
    var spans := Pack(lines, "\n", maxSize, 0);
    PackSound(lines, "\n", maxSize, 0);
    PackGapped(lines, "\n", maxSize, 0);
    JoinSplit(text, "\n");
    NumberPieces(spans, 0, meta);
    NumberLaid(spans, 0, meta, text, 0, |text|, 1);
    NumberText(spans, 0, meta, text, 0);
    var cs := LineChunks(text, maxSize, meta);
    forall k | 0 <= k < |cs| ensures |cs[k].content| <= maxSize || cs[k].content in lines {
      assert Packing.Fits(spans[k].content, lines, maxSize);
    }
  }

  /** The fallback loop. */
  method LineChunksOf<M>(text: String, maxSize: int, meta: M) returns (chunks: seq<Chunk<M>>)
    ensures chunks == LineChunks(text, maxSize, meta)
  {
    var spans := PackPieces(Split(text, "\n"), "\n", maxSize, 0);
    chunks := AppendSpans([], spans, meta);
    assert [] + Number(spans, 0, meta) == Number(spans, 0, meta);
  }
}
