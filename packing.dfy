/**
 * The greedy line/paragraph packer shared by the HCL, protobuf, DOCX, ODT,
 * LaTeX and PDF splitters: pieces are appended to the current chunk with a
 * separator until the next piece would push it past `maxSize`.
 *
 * `PackAsWritten` is the loop as the Go code has it; `Pack` is the corrected
 * loop that the chunker models use (see README, Findings). `LinePieces` is
 * the newline-joined line fallback of the notebook and XML splitters.
 */
module Packing {
  import opened Text

  /** A chunk's text with its `[start, end)` offsets. */
  datatype Span = Span(content: String, start: int, end: int)

  function Contents(spans: seq<Span>): (r: seq<String>)
    ensures |r| == |spans|
  {
    if |spans| == 0 then [] else Contents(spans[..|spans| - 1]) + [spans[|spans| - 1].content]
  }

  lemma ContentsSnoc(spans: seq<Span>, s: Span)
    ensures Contents(spans + [s]) == Contents(spans) + [s.content]
  {
    assert (spans + [s])[..|spans|] == spans;
  }

  // ---------------------------------------------------------------------
  // The loop as written: a chunk is "open" when the builder is non-empty,
  // and its offsets are taken back from the running offset.

  datatype RawState = RawState(done: seq<Span>, cur: String, offset: int)

  function RawEmit(cur: String, offset: int): Span
  {
    Span(cur, offset - |cur|, offset)
  }

  function RawStep(st: RawState, p: String, sep: String, maxSize: int): RawState
  {
    var flushed :=
      if |st.cur| + |p| + |sep| > maxSize && |st.cur| > 0
      then RawState(st.done + [RawEmit(st.cur, st.offset)], [], st.offset)
      else st;
    var cur := if |flushed.cur| > 0 then flushed.cur + sep + p else p;
    RawState(flushed.done, cur, flushed.offset + |p| + |sep|)
  }

  function RawRun(pieces: seq<String>, sep: String, maxSize: int, base: int): RawState
  {
    if |pieces| == 0 then RawState([], [], base)
    else RawStep(RawRun(pieces[..|pieces| - 1], sep, maxSize, base), pieces[|pieces| - 1], sep, maxSize)
  }

  function PackAsWritten(pieces: seq<String>, sep: String, maxSize: int, base: int): seq<Span>
  {
    var st := RawRun(pieces, sep, maxSize, base);
    if |st.cur| > 0 then st.done + [RawEmit(st.cur, st.offset)] else st.done
  }

  /** Every chunk of the loop as written has `end - start == |content|`. */
  lemma {:induction false} AsWrittenWidths(pieces: seq<String>, sep: String, maxSize: int, base: int)
    ensures forall s :: s in PackAsWritten(pieces, sep, maxSize, base) ==> s.end - s.start == |s.content|
  {
    RawRunWidths(pieces, sep, maxSize, base);
  }

  lemma {:induction false} RawRunWidths(pieces: seq<String>, sep: String, maxSize: int, base: int)
    ensures forall s :: s in RawRun(pieces, sep, maxSize, base).done ==> s.end - s.start == |s.content|
  {
    if |pieces| > 0 {
      RawRunWidths(pieces[..|pieces| - 1], sep, maxSize, base);
    }
  }

  /** The first chunk of `["aaa", "bbb"]` starts one byte late: the text is at [0, 3). */
  lemma AsWrittenStartIsShifted()
    ensures PackAsWritten(["aaa", "bbb"], "\n", 5, 0)[0] == Span("aaa", 1, 4)
    ensures Join(["aaa", "bbb"], "\n")[0..3] == "aaa"
  {
    var s0 := RawState([], [], 0);
    var s1 := RawStep(s0, "aaa", "\n", 5);
    assert s1 == RawState([], "aaa", 4);
    assert ["aaa", "bbb"][..1] == ["aaa"];
    assert ["aaa"][..0] == [];
    assert RawRun(["aaa"], "\n", 5, 0) == s1;
    var s2 := RawStep(s1, "bbb", "\n", 5);
    assert s2 == RawState([Span("aaa", 1, 4)], "bbb", 8);
  }

  /** An empty first line vanishes: the one chunk of `"\nabc"` is `"abc"`. */
  lemma AsWrittenDropsLeadingEmptyLine()
    ensures Join(["", "abc"], "\n") == "\nabc"
    ensures Contents(PackAsWritten(["", "abc"], "\n", 100, 0)) == ["abc"]
  {
    var s0 := RawState([], [], 0);
    var s1 := RawStep(s0, "", "\n", 100);
    assert s1 == RawState([], [], 1);
    assert ["", "abc"][..1] == [""];
    assert [""][..0] == [];
    assert RawRun([""], "\n", 100, 0) == s1;
    var s2 := RawStep(s1, "abc", "\n", 100);
    assert s2 == RawState([], "abc", 5);
  }

  /** With the paragraph separator "\n\n", the first chunk of `["aaa", "bbb"]` starts two bytes late. */
  lemma AsWrittenParagraphShift()
    ensures PackAsWritten(["aaa", "bbb"], "\n\n", 5, 0)[0] == Span("aaa", 2, 5)
    ensures Join(["aaa", "bbb"], "\n\n")[0..3] == "aaa"
  {
    var s0 := RawState([], [], 0);
    var s1 := RawStep(s0, "aaa", "\n\n", 5);
    assert s1 == RawState([], "aaa", 5);
    assert ["aaa", "bbb"][..1] == ["aaa"];
    assert ["aaa"][..0] == [];
    assert RawRun(["aaa"], "\n\n", 5, 0) == s1;
    var s2 := RawStep(s1, "bbb", "\n\n", 5);
    assert s2 == RawState([Span("aaa", 2, 5)], "bbb", 10);
  }

  // ---------------------------------------------------------------------
  // The corrected loop: a chunk is open once a piece has been placed in it,
  // and its start is the offset of its first piece.

  datatype State = State(done: seq<Span>, cur: String, open: bool, start: int, offset: int)

  function Emit(cur: String, start: int): Span
  {
    Span(cur, start, start + |cur|)
  }

  function Step(st: State, p: String, sep: String, maxSize: int): State
  {
    if st.open && |st.cur| + |p| + |sep| > maxSize then
      State(st.done + [Emit(st.cur, st.start)], p, true, st.offset, st.offset + |p| + |sep|)
    else if st.open then
      State(st.done, st.cur + sep + p, true, st.start, st.offset + |p| + |sep|)
    else
      State(st.done, p, true, st.offset, st.offset + |p| + |sep|)
  }

  function Run(pieces: seq<String>, sep: String, maxSize: int, base: int): State
  {
    if |pieces| == 0 then State([], [], false, base, base)
    else Step(Run(pieces[..|pieces| - 1], sep, maxSize, base), pieces[|pieces| - 1], sep, maxSize)
  }

  function Finish(st: State): seq<Span>
  {
    if st.open then st.done + [Emit(st.cur, st.start)] else st.done
  }

  /** The chunks of `pieces` packed from offset `base`. */
  function Pack(pieces: seq<String>, sep: String, maxSize: int, base: int): seq<Span>
  {
    Finish(Run(pieces, sep, maxSize, base))
  }

  /** `s` sits at its own offsets inside `text`, which begins at offset `base`. */
  predicate Located(s: Span, text: String, base: int)
  {
    base <= s.start && s.end == s.start + |s.content| && s.end - base <= |text|
    && text[s.start - base..s.end - base] == s.content
  }

  /** A chunk is within the size limit, or it is a single piece. */
  predicate Fits(content: String, pieces: seq<String>, maxSize: int)
  {
    |content| <= maxSize || content in pieces
  }

  predicate DoneInv(done: seq<Span>, text: String, pieces: seq<String>, maxSize: int, base: int)
  {
    forall k :: 0 <= k < |done| ==> Located(done[k], text, base) && Fits(done[k].content, pieces, maxSize)
  }

  predicate CurInv(st: State, text: String, pieces: seq<String>, sep: String, maxSize: int, base: int)
  {
    Join(Contents(st.done) + [st.cur], sep) == text
    && st.offset == base + |text| + |sep|
    && st.start == base + |text| - |st.cur|
    && Located(Emit(st.cur, st.start), text, base)
    && Fits(st.cur, pieces, maxSize)
  }

  predicate RunInv(st: State, pieces: seq<String>, sep: String, maxSize: int, base: int)
  {
    (|pieces| == 0 <==> !st.open)
    && (|pieces| == 0 ==> st.done == [] && st.offset == base)
    && (|pieces| > 0 ==> CurInv(st, Join(pieces, sep), pieces, sep, maxSize, base))
    && DoneInv(st.done, Join(pieces, sep), pieces, maxSize, base)
  }

  lemma JoinSnoc(parts: seq<String>, p: String, sep: String)
    requires |parts| > 0
    ensures Join(parts + [p], sep) == Join(parts, sep) + sep + p
  {
    assert (parts + [p])[..|parts|] == parts;
  }

  /** Appending `sep + p` to the last part appends it to the joined text. */
  lemma {:induction false} JoinExtendLast(parts: seq<String>, last: String, p: String, sep: String)
    ensures Join(parts + [last + sep + p], sep) == Join(parts + [last], sep) + sep + p
  {
    if |parts| > 0 {
      JoinSnoc(parts, last + sep + p, sep);
      JoinSnoc(parts, last, sep);
    }
  }

  lemma LocatedExtends(s: Span, text: String, more: String, base: int)
    requires Located(s, text, base)
    ensures Located(s, text + more, base)
  {
    assert (text + more)[s.start - base..s.end - base] == text[s.start - base..s.end - base];
  }

  /** Chunks already emitted stay where they are when the text grows. */
  lemma DoneExtends(done: seq<Span>, t0: String, more: String, prev: seq<String>, p: String, maxSize: int, base: int)
    requires DoneInv(done, t0, prev, maxSize, base)
    ensures DoneInv(done, t0 + more, prev + [p], maxSize, base)
  {
    forall k | 0 <= k < |done|
      ensures Located(done[k], t0 + more, base) && Fits(done[k].content, prev + [p], maxSize)
    {
      LocatedExtends(done[k], t0, more, base);
    }
  }

  /** A flush keeps the emitted chunks in place and adds the closed one. */
  lemma FlushDone(st: State, t0: String, prev: seq<String>, p: String, sep: String, maxSize: int, base: int)
    requires st.open
    requires CurInv(st, t0, prev, sep, maxSize, base) && DoneInv(st.done, t0, prev, maxSize, base)
    ensures DoneInv(st.done + [Emit(st.cur, st.start)], t0 + sep + p, prev + [p], maxSize, base)
  {
    var cur := Emit(st.cur, st.start);
    assert t0 + sep + p == t0 + (sep + p);
    LocatedExtends(cur, t0, sep + p, base);
    DoneExtends(st.done, t0, sep + p, prev, p, maxSize, base);
    assert Fits(cur.content, prev + [p], maxSize) by {
      assert st.cur in prev ==> st.cur in prev + [p];
    }
  }

  lemma FlushJoin(done: seq<Span>, cur: String, start: int, t0: String, p: String, sep: String)
    requires Join(Contents(done) + [cur], sep) == t0
    ensures Join(Contents(done + [Emit(cur, start)]) + [p], sep) == t0 + sep + p
  {
    ContentsSnoc(done, Emit(cur, start));
    JoinSnoc(Contents(done) + [cur], p, sep);
  }

  lemma LocatedLast(t0: String, sep: String, p: String, base: int, at: int)
    requires at == base + |t0| + |sep|
    ensures Located(Emit(p, at), t0 + sep + p, base)
  {
    assert (t0 + sep + p)[|t0| + |sep|..] == p;
  }

  /** After a flush, the new piece alone is the open chunk. */
  lemma FlushCur(st: State, t0: String, prev: seq<String>, p: String, sep: String, maxSize: int, base: int)
    requires Join(Contents(st.done) + [st.cur], sep) == t0
    requires st.offset == base + |t0| + |sep|
    ensures CurInv(State(st.done + [Emit(st.cur, st.start)], p, true, st.offset, st.offset + |p| + |sep|),
                   t0 + sep + p, prev + [p], sep, maxSize, base)
  {
    FlushJoin(st.done, st.cur, st.start, t0, p, sep);
    LocatedLast(t0, sep, p, base, st.offset);
    assert (prev + [p])[|prev|] == p;
  }

  lemma FlushKeepsInv(st: State, t0: String, prev: seq<String>, p: String, sep: String, maxSize: int, base: int)
    requires st.open && |st.cur| + |p| + |sep| > maxSize
    requires CurInv(st, t0, prev, sep, maxSize, base) && DoneInv(st.done, t0, prev, maxSize, base)
    ensures var st' := Step(st, p, sep, maxSize);
      CurInv(st', t0 + sep + p, prev + [p], sep, maxSize, base)
      && DoneInv(st'.done, t0 + sep + p, prev + [p], maxSize, base)
  {
    assert Step(st, p, sep, maxSize) ==
      State(st.done + [Emit(st.cur, st.start)], p, true, st.offset, st.offset + |p| + |sep|);
    FlushDone(st, t0, prev, p, sep, maxSize, base);
    FlushCur(st, t0, prev, p, sep, maxSize, base);
  }

  /** Extending the open chunk keeps it at its start, covering the new piece. */
  lemma ExtendCur(st: State, t0: String, prev: seq<String>, p: String, sep: String, maxSize: int, base: int)
    requires st.open && |st.cur| + |p| + |sep| <= maxSize
    requires CurInv(st, t0, prev, sep, maxSize, base)
    ensures CurInv(State(st.done, st.cur + sep + p, true, st.start, st.offset + |p| + |sep|),
                   t0 + sep + p, prev + [p], sep, maxSize, base)
  {
    var text := t0 + sep + p;
    assert Join(Contents(st.done) + [st.cur + sep + p], sep) == text by {
      JoinExtendLast(Contents(st.done), st.cur, p, sep);
    }
    assert Located(Emit(st.cur + sep + p, st.start), text, base) by {
      var i := st.start - base;
      assert t0[i..] == st.cur;
      assert text == t0 + (sep + p);
      assert text[i..] == t0[i..] + (sep + p);
    }
  }

  lemma ExtendKeepsInv(st: State, t0: String, prev: seq<String>, p: String, sep: String, maxSize: int, base: int)
    requires st.open && |st.cur| + |p| + |sep| <= maxSize
    requires CurInv(st, t0, prev, sep, maxSize, base) && DoneInv(st.done, t0, prev, maxSize, base)
    ensures var st' := Step(st, p, sep, maxSize);
      CurInv(st', t0 + sep + p, prev + [p], sep, maxSize, base)
      && DoneInv(st'.done, t0 + sep + p, prev + [p], maxSize, base)
  {
    assert Step(st, p, sep, maxSize) == State(st.done, st.cur + sep + p, true, st.start, st.offset + |p| + |sep|);
    assert t0 + sep + p == t0 + (sep + p);
    DoneExtends(st.done, t0, sep + p, prev, p, maxSize, base);
    ExtendCur(st, t0, prev, p, sep, maxSize, base);
  }

  lemma {:induction false} RunKeepsInv(pieces: seq<String>, sep: String, maxSize: int, base: int)
    ensures RunInv(Run(pieces, sep, maxSize, base), pieces, sep, maxSize, base)
  {
    if |pieces| > 0 {
      var n := |pieces|;
      var prev := pieces[..n - 1];
      var p := pieces[n - 1];
      assert pieces == prev + [p];
      RunKeepsInv(prev, sep, maxSize, base);
      if n == 1 {
        assert Join(pieces, sep) == p;
        assert Contents([]) + [p] == [p];
      } else {
        var st := Run(prev, sep, maxSize, base);
        JoinSnoc(prev, p, sep);
        if |st.cur| + |p| + |sep| > maxSize {
          FlushKeepsInv(st, Join(prev, sep), prev, p, sep, maxSize, base);
        } else {
          ExtendKeepsInv(st, Join(prev, sep), prev, p, sep, maxSize, base);
        }
      }
    }
  }

  predicate AllLocated(spans: seq<Span>, text: String, base: int)
  {
    forall k :: 0 <= k < |spans| ==> Located(spans[k], text, base)
  }

  predicate AllFits(spans: seq<Span>, pieces: seq<String>, maxSize: int)
  {
    forall k :: 0 <= k < |spans| ==> Fits(spans[k].content, pieces, maxSize)
  }

  /**
   * The chunks of `Pack` reproduce the joined pieces, each sits at its own
   * offsets in the joined text, and only a single piece may exceed `maxSize`.
   */
  lemma {:induction false} PackSound(pieces: seq<String>, sep: String, maxSize: int, base: int)
    ensures var spans := Pack(pieces, sep, maxSize, base);
      && Join(Contents(spans), sep) == Join(pieces, sep)
      && (|spans| == 0 <==> |pieces| == 0)
      && AllLocated(spans, Join(pieces, sep), base)
      && AllFits(spans, pieces, maxSize)
  {
    RunKeepsInv(pieces, sep, maxSize, base);
    var st := Run(pieces, sep, maxSize, base);
    if |pieces| > 0 {
      ContentsSnoc(st.done, Emit(st.cur, st.start));
    }
  }

  /** Span `k` starts `gap` after span `k - 1` ends. */
  predicate GapAt(spans: seq<Span>, k: int, gap: int)
    requires 0 < k < |spans|
  {
    spans[k].start == spans[k - 1].end + gap
  }

  /** Consecutive spans are `gap` apart. */
  predicate Gapped(spans: seq<Span>, gap: int)
  {
    forall k :: 0 < k < |spans| ==> GapAt(spans, k, gap)
  }

  /** Where the open chunk and the running offset sit relative to the closed chunks. */
  predicate Spaced(st: State, sep: String)
  {
    && Gapped(st.done, |sep|)
    && (!st.open ==> st.done == [])
    && (st.open && |st.done| > 0 ==> st.start == st.done[|st.done| - 1].end + |sep|)
    && (st.open ==> st.offset == st.start + |st.cur| + |sep|)
  }

  lemma {:induction false} RunSpaced(pieces: seq<String>, sep: String, maxSize: int, base: int)
    ensures Spaced(Run(pieces, sep, maxSize, base), sep)
  {
    if |pieces| > 0 {
      RunSpaced(pieces[..|pieces| - 1], sep, maxSize, base);
      StepSpaced(Run(pieces[..|pieces| - 1], sep, maxSize, base), pieces[|pieces| - 1], sep, maxSize);
    }
  }

  lemma StepSpaced(st: State, p: String, sep: String, maxSize: int)
    requires Spaced(st, sep)
    ensures Spaced(Step(st, p, sep, maxSize), sep)
  {
    if st.open && |st.cur| + |p| + |sep| > maxSize {
      var done := st.done + [Emit(st.cur, st.start)];
      forall k | 0 < k < |done|
        ensures GapAt(done, k, |sep|)
      {
        if k < |st.done| {
          assert GapAt(st.done, k, |sep|);
        }
      }
    }
  }

  /**
   * The chunks of `Pack` follow one another in order, each starting one
   * separator after the previous one ends.
   */
  lemma PackGapped(pieces: seq<String>, sep: String, maxSize: int, base: int)
    ensures Gapped(Pack(pieces, sep, maxSize, base), |sep|)
  {
    var st := Run(pieces, sep, maxSize, base);
    RunSpaced(pieces, sep, maxSize, base);
    if st.open {
      var spans := st.done + [Emit(st.cur, st.start)];
      forall k | 0 < k < |spans|
        ensures GapAt(spans, k, |sep|)
      {
        if k < |st.done| {
          assert GapAt(st.done, k, |sep|);
        }
      }
    }
  }

  /**
   * The packing loop. The chunks it returns are `Pack(pieces, sep, maxSize, base)`.
   */
  method PackPieces(pieces: seq<String>, sep: String, maxSize: int, base: int) returns (spans: seq<Span>)
    ensures spans == Pack(pieces, sep, maxSize, base)
  {
    spans := [];
    var cur: String := [];
    var open := false;
    var start := base;
    var offset := base;
    var i := 0;
    while i < |pieces|
      invariant 0 <= i <= |pieces|
      invariant Run(pieces[..i], sep, maxSize, base) == State(spans, cur, open, start, offset)
    {
      var p := pieces[i];
      assert pieces[..i + 1][..i] == pieces[..i];
      if open && |cur| + |p| + |sep| > maxSize {
        spans := spans + [Emit(cur, start)];
        open := false;
      }
      if open {
        cur := cur + sep + p;
      } else {
        cur := p;
        open := true;
        start := offset;
      }
      offset := offset + |p| + |sep|;
      i := i + 1;
    }
    assert pieces[..i] == pieces;
    if open {
      spans := spans + [Emit(cur, start)];
    }
  }

  // ---------------------------------------------------------------------
  // Paragraph packing: each part trimmed, blank parts skipped.

  /** The parts that remain once each is trimmed and the blank ones dropped. */
  function Kept(parts: seq<String>): (r: seq<String>)
    ensures forall k :: 0 <= k < |r| ==> r[k] != []
  {
    if |parts| == 0 then []
    else
      var t := TrimSpace(parts[|parts| - 1]);
      Kept(parts[..|parts| - 1]) + (if t == [] then [] else [t])
  }

  lemma KeptSnoc(parts: seq<String>)
    requires |parts| > 0
    ensures var t := TrimSpace(parts[|parts| - 1]);
      Kept(parts) == Kept(parts[..|parts| - 1]) + (if t == [] then [] else [t])
  {
  }

  lemma KeptPrefix(parts: seq<String>, i: nat, p: String)
    requires i < |parts| && p == TrimSpace(parts[i])
    ensures p == [] ==> Kept(parts[..i + 1]) == Kept(parts[..i])
    ensures p != [] ==> Kept(parts[..i + 1]) == Kept(parts[..i]) + [p]
  {
    assert parts[..i + 1][..i] == parts[..i];
    KeptSnoc(parts[..i + 1]);
    assert Kept(parts[..i]) + [] == Kept(parts[..i]);
  }

  lemma JoinLast(parts: seq<String>, sep: String)
    requires |parts| > 0
    ensures |parts| == 1 ==> Join(parts, sep) == parts[0]
    ensures |parts| > 1 ==> |Join(parts, sep)| == |Join(parts[..|parts| - 1], sep)| + |sep| + |parts[|parts| - 1]|
  {
  }

  /** Trimming and dropping parts never lengthens their join. */
  lemma {:induction false} KeptShorter(parts: seq<String>, sep: String)
    ensures |Join(Kept(parts), sep)| <= |Join(parts, sep)|
  {
    if |parts| > 0 {
      KeptShorter(parts[..|parts| - 1], sep);
      KeptShorterStep(parts, sep);
    }
  }

  lemma KeptShorterStep(parts: seq<String>, sep: String)
    requires |parts| > 0
    requires |Join(Kept(parts[..|parts| - 1]), sep)| <= |Join(parts[..|parts| - 1], sep)|
    ensures |Join(Kept(parts), sep)| <= |Join(parts, sep)|
  {
    var init := parts[..|parts| - 1];
    var last := parts[|parts| - 1];
    var t := TrimSpace(last);
    var ks := Kept(init);
    KeptSnoc(parts);
    JoinLast(parts, sep);
    assert |Join(parts, sep)| >= |last|;
    if t != [] {
      assert Kept(parts) == ks + [t];
      if |ks| == 0 {
        assert ks + [t] == [t];
      } else {
        assert |init| > 0;
        JoinLast(ks + [t], sep);
        assert (ks + [t])[..|ks|] == ks;
      }
    } else {
      assert Kept(parts) == ks;
    }
  }

  lemma RunSnoc(pieces: seq<String>, p: String, sep: String, maxSize: int, base: int)
    ensures Run(pieces + [p], sep, maxSize, base) == Step(Run(pieces, sep, maxSize, base), p, sep, maxSize)
  {
    assert (pieces + [p])[..|pieces|] == pieces;
  }

  /**
   * The paragraph loop of the document splitters: each part is trimmed,
   * blank ones are skipped, and the rest are packed with `sep`.
   */
  method PackTrimmed(parts: seq<String>, sep: String, maxSize: int, base: int) returns (spans: seq<Span>)
    ensures spans == Pack(Kept(parts), sep, maxSize, base)
  {
    spans := [];
    var cur: String := [];
    var open := false;
    var start := base;
    var offset := base;
    var i := 0;
    while i < |parts|
      invariant 0 <= i <= |parts|
      invariant Run(Kept(parts[..i]), sep, maxSize, base) == State(spans, cur, open, start, offset)
    {
      var p := TrimSpace(parts[i]);
      ghost var ks := Kept(parts[..i]);
      KeptPrefix(parts, i, p);
      if p != [] {
        RunSnoc(ks, p, sep, maxSize, base);
        spans, cur, open, start, offset := Advance(spans, cur, open, start, offset, p, sep, maxSize);
      }
      i := i + 1;
    }
    assert parts[..i] == parts;
    if open {
      spans := spans + [Emit(cur, start)];
    }
  }

  /** One step of the packing loop: close the open chunk if `p` does not fit, then add `p`. */
  method Advance(spans: seq<Span>, cur: String, open: bool, start: int, offset: int, p: String, sep: String, maxSize: int)
    returns (spans': seq<Span>, cur': String, open': bool, start': int, offset': int)
    ensures State(spans', cur', open', start', offset') == Step(State(spans, cur, open, start, offset), p, sep, maxSize)
  {
    spans', cur', open', start', offset' := spans, cur, open, start, offset;
    if open' && |cur'| + |p| + |sep| > maxSize {
      spans' := spans' + [Emit(cur', start')];
      open' := false;
    }
    if open' {
      cur' := cur' + sep + p;
    } else {
      cur' := p;
      open' := true;
      start' := offset';
    }
    offset' := offset' + |p| + |sep|;
  }

  // ---------------------------------------------------------------------
  // Line packing: the line fallback of the notebook and XML splitters

  /** The pieces packed so far and the piece being built. */
  datatype Lines = Lines(done: seq<String>, cur: String)

  /**
   * One line of the line fallback: the current piece is emitted when the
   * line and a newline would take it past `maxSize`; the line is then
   * appended, after a newline unless the piece is empty.
   */
  function LineStep(st: Lines, line: String, maxSize: int): Lines
  {
    var flush := |st.cur| + |line| + 1 > maxSize && |st.cur| > 0;
    var done := if flush then st.done + [st.cur] else st.done;
    var cur := if flush then [] else st.cur;
    Lines(done, if |cur| > 0 then cur + "\n" + line else line)
  }

  function LineRun(lines: seq<String>, maxSize: int): Lines
  {
    if |lines| == 0 then Lines([], []) else LineStep(LineRun(lines[..|lines| - 1], maxSize), lines[|lines| - 1], maxSize)
  }

  /** The texts of the chunks the line fallback makes of `text`. */
  function LinePieces(text: String, maxSize: int): seq<String>
  {
    var st := LineRun(Split(text, "\n"), maxSize);
    if |st.cur| > 0 then st.done + [st.cur] else st.done
  }

  /** A piece is within the limit, or is a single over-long line. */
  predicate Within(p: String, maxSize: int)
  {
    |p| <= maxSize || !Contains(p, "\n")
  }

  predicate LinesInv(st: Lines, lines: seq<String>, maxSize: int)
  {
    && (forall p :: p in st.done ==> |p| > 0 && Within(p, maxSize))
    && Within(st.cur, maxSize)
    && ((forall l :: l in lines ==> |l| > 0) && |lines| > 0 ==> |st.cur| > 0 && Join(st.done + [st.cur], "\n") == Join(lines, "\n"))
  }

  lemma LineStepInv(st: Lines, lines: seq<String>, line: String, maxSize: int)
    requires LinesInv(st, lines, maxSize) && !Contains(line, "\n")
    requires |lines| == 0 ==> st == Lines([], [])
    ensures LinesInv(LineStep(st, line, maxSize), lines + [line], maxSize)
  {
    var next := LineStep(st, line, maxSize);
    assert forall p :: p in next.done ==> p in st.done || p == st.cur;
    if (forall l :: l in lines + [line] ==> |l| > 0) {
      assert forall l :: l in lines ==> l in lines + [line];
      if |lines| == 0 {
        assert lines + [line] == [line];
      } else {
        JoinSnoc(lines, line, "\n");
        if |st.cur| + |line| + 1 > maxSize {
          JoinSnoc(st.done + [st.cur], line, "\n");
        } else {
          JoinExtendLast(st.done, st.cur, line, "\n");
        }
      }
    }
  }

  lemma {:induction false} LineRunInv(lines: seq<String>, maxSize: int)
    requires forall l :: l in lines ==> !Contains(l, "\n")
    ensures LinesInv(LineRun(lines, maxSize), lines, maxSize)
    decreases |lines|
  {
    if |lines| > 0 {
      var init := lines[..|lines| - 1];
      LineRunInv(init, maxSize);
      assert init + [lines[|lines| - 1]] == lines;
      LineStepInv(LineRun(init, maxSize), init, lines[|lines| - 1], maxSize);
    }
  }

  /**
   * The pieces of the line fallback are non-empty, each is within
   * `maxSize` or is one line longer than it, and when no line of the text
   * is empty they join back to the text with newlines.
   */
  lemma LinePiecesSound(text: String, maxSize: int)
    ensures forall p :: p in LinePieces(text, maxSize) ==> |p| > 0 && Within(p, maxSize)
    ensures (forall l :: l in Split(text, "\n") ==> |l| > 0) ==> Join(LinePieces(text, maxSize), "\n") == text
  {
    var lines := Split(text, "\n");
    SplitPartsFree(text, "\n");
    LineRunInv(lines, maxSize);
    JoinSplit(text, "\n");
  }

  /** The line fallback, on the chunk texts. */
  method SplitLines(text: String, maxSize: int) returns (pieces: seq<String>)
    ensures pieces == LinePieces(text, maxSize)
  {
    var lines := Split(text, "\n");
    var done: seq<String> := [];
    var cur: String := [];
    for i := 0 to |lines|
      invariant Lines(done, cur) == LineRun(lines[..i], maxSize)
    {
      assert lines[..i + 1][..i] == lines[..i];
      var line := lines[i];
      if |cur| + |line| + 1 > maxSize && |cur| > 0 {
        done := done + [cur];
        cur := [];
      }
      if |cur| > 0 {
        cur := cur + "\n" + line;
      } else {
        cur := line;
      }
    }
    assert lines[..|lines|] == lines;
    if |cur| > 0 {
      done := done + [cur];
    }
    pieces := done;
  }
}
