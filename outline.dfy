/**
 * What the DOCX, ODT and PDF chunkers share: the heading-section builder of
 * DOCX and ODT (`extractSections`), and the loop that turns sections into
 * chunks (`Chunk` with `splitLargeSection`). A section whose trimmed text
 * fits becomes one chunk spanning the section; a larger one has its trimmed,
 * non-blank paragraphs packed with blank lines between them.
 */
module Outline {
  import opened Text
  import opened Chunks
  import opened Packing
  import Sections

  // ---------------------------------------------------------------------
  // Sections to chunks

  /** A section: its text, the paragraphs its splitter packs, its offsets and its metadata. */
  datatype Part<M> = Part(text: String, pieces: seq<String>, start: int, end: int, meta: M)

  /** The chunks of one section, numbered from `count`. */
  function PartChunks<M>(p: Part<M>, maxSize: int, count: int): seq<Chunk<M>>
  {
    var t := TrimSpace(p.text);
    if t == [] then []
    else if |t| > maxSize then Sections.Number(Pack(Kept(p.pieces), "\n\n", maxSize, p.start), count, p.meta)
    else [Chunk(count, t, p.start, p.end, p.meta)]
  }

  /** The chunks of the sections, in order. */
  function ChunkParts<M>(parts: seq<Part<M>>, maxSize: int): seq<Chunk<M>>
  {
    if |parts| == 0 then []
    else
      var prev := ChunkParts(parts[..|parts| - 1], maxSize);
      prev + PartChunks(parts[|parts| - 1], maxSize, |prev|)
  }

  /** A section's packed paragraphs and its trimmed text fit between its offsets. */
  predicate Spanned<M>(p: Part<M>)
  {
    p.start <= p.end && |Join(Kept(p.pieces), "\n\n")| <= p.end - p.start && |TrimSpace(p.text)| <= p.end - p.start
  }

  /** The sections lie at or after `lo`, in order and without overlap. */
  predicate Ordered<M>(parts: seq<Part<M>>, lo: int)
  {
    && (forall i :: 0 <= i < |parts| ==> Spanned(parts[i]) && lo <= parts[i].start)
    && (forall i :: 0 < i < |parts| ==> parts[i - 1].end <= parts[i].start)
  }

  /** Where the last section ends. */
  function Reach<M>(parts: seq<Part<M>>, lo: int): int
  {
    if |parts| == 0 then lo else parts[|parts| - 1].end
  }

  /**
   * Chunk `k` has index `count + k`, lies within `[lo, hi]`, holds no more
   * text than its offsets span, and ends before the next one starts.
   */
  predicate Placed<M>(cs: seq<Chunk<M>>, lo: int, hi: int, count: int)
  {
    && (forall k :: 0 <= k < |cs| ==> cs[k].index == count + k)
    && (forall k :: 0 <= k < |cs| ==> lo <= cs[k].start && cs[k].start + |cs[k].content| <= cs[k].end <= hi)
    && (forall k :: 0 < k < |cs| ==> Sections.Before(cs, k))
  }

  /** A chunk is within `maxSize`, or it is a single paragraph of some section. */
  predicate Within<M>(c: Chunk<M>, parts: seq<Part<M>>, maxSize: int)
  {
    |c.content| <= maxSize || exists i :: 0 <= i < |parts| && c.content in Kept(parts[i].pieces)
  }

  lemma PlacedAppend<M>(a: seq<Chunk<M>>, b: seq<Chunk<M>>, lo: int, mid: int, hi: int)
    requires Placed(a, lo, mid, 0) && Placed(b, mid, hi, |a|) && lo <= mid <= hi
    ensures Placed(a + b, lo, hi, 0)
  {
    var ab := a + b;
    forall k | 0 < k < |ab| ensures Sections.Before(ab, k) {
      if k < |a| {
        assert Sections.Before(a, k);
      } else if k > |a| {
        assert Sections.Before(b, k - |a|);
      }
    }
  }

  /** The chunks of one section lie within it. */
  lemma PartPlaced<M>(p: Part<M>, maxSize: int, count: int)
    requires Spanned(p)
    ensures Placed(PartChunks(p, maxSize, count), p.start, p.end, count)
  {
    hide Pack, Join, Kept, Sections.Number;
    var t := TrimSpace(p.text);
    if t != [] && |t| > maxSize {
      var pieces := Kept(p.pieces);
      var spans := Pack(pieces, "\n\n", maxSize, p.start);
      PackSound(pieces, "\n\n", maxSize, p.start);
      PackGapped(pieces, "\n\n", maxSize, p.start);
      Sections.NumberLaid(spans, count, p.meta, Join(pieces, "\n\n"), p.start, p.end, 2);
    }
  }

  /** The chunks of one section are within the limit or single paragraphs. */
  lemma PartWithin<M>(p: Part<M>, maxSize: int, count: int)
    ensures forall k :: 0 <= k < |PartChunks(p, maxSize, count)| ==>
      (|PartChunks(p, maxSize, count)[k].content| <= maxSize || PartChunks(p, maxSize, count)[k].content in Kept(p.pieces))
  {
    var t := TrimSpace(p.text);
    if t != [] && |t| > maxSize {
      var spans := Pack(Kept(p.pieces), "\n\n", maxSize, p.start);
      PackSound(Kept(p.pieces), "\n\n", maxSize, p.start);
      forall k | 0 <= k < |spans| ensures Packing.Fits(spans[k].content, Kept(p.pieces), maxSize) {
      }
    }
  }

  predicate PlacedParts<M>(parts: seq<Part<M>>, maxSize: int, lo: int)
  {
    Placed(ChunkParts(parts, maxSize), lo, Reach(parts, lo), 0)
  }

  /**
   * The chunks are numbered 0, 1, ... in order, lie within their sections and
   * do not overlap.
   */
  lemma {:induction false} ChunkPartsPlaced<M>(parts: seq<Part<M>>, maxSize: int, lo: int)
    requires Ordered(parts, lo)
    ensures PlacedParts(parts, maxSize, lo)
    decreases |parts|
  {
    if |parts| > 0 {
      var init := parts[..|parts| - 1];
      var last := parts[|parts| - 1];
      assert Ordered(init, lo);
      ChunkPartsPlaced(init, maxSize, lo);
      var prev := ChunkParts(init, maxSize);
      PartPlaced(last, maxSize, |prev|);
      assert Reach(init, lo) <= last.start by {
        if |init| > 0 {
          assert parts[|parts| - 2].end <= last.start;
        }
      }
      assert Placed(PartChunks(last, maxSize, |prev|), Reach(init, lo), last.end, |prev|);
      PlacedAppend(prev, PartChunks(last, maxSize, |prev|), lo, Reach(init, lo), last.end);
    }
  }

  predicate AllWithin<M>(cs: seq<Chunk<M>>, parts: seq<Part<M>>, maxSize: int)
  {
    forall k :: 0 <= k < |cs| ==> Within(cs[k], parts, maxSize)
  }

  /** Only a single paragraph of a section may exceed the limit. */
  lemma {:induction false} ChunkPartsWithin<M>(parts: seq<Part<M>>, maxSize: int)
    ensures AllWithin(ChunkParts(parts, maxSize), parts, maxSize)
    decreases |parts|
  {
    if |parts| > 0 {
      var init := parts[..|parts| - 1];
      var last := parts[|parts| - 1];
      ChunkPartsWithin(init, maxSize);
      var prev := ChunkParts(init, maxSize);
      var cs := PartChunks(last, maxSize, |prev|);
      PartWithin(last, maxSize, |prev|);
      var all := prev + cs;
      forall k | 0 <= k < |all| ensures Within(all[k], parts, maxSize) {
        if k < |prev| {
          assert Within(prev[k], init, maxSize);
          if |prev[k].content| > maxSize {
            var i :| 0 <= i < |init| && prev[k].content in Kept(init[i].pieces);
            assert parts[i] == init[i];
          }
        } else {
          assert all[k] == cs[k - |prev|];
          assert parts[|parts| - 1] == last;
        }
      }
    }
  }

  /**
   * A section gives no chunk exactly when its text is blank, and one chunk
   * holding its trimmed text, at the section's offsets, when that fits.
   */
  lemma PartChunksCases<M>(p: Part<M>, sep: String, maxSize: int, count: int)
    requires IsBlank(sep) && Join(p.pieces, sep) == p.text
    ensures IsBlank(p.text) <==> PartChunks(p, maxSize, count) == []
    ensures !IsBlank(p.text) && |TrimSpace(p.text)| <= maxSize ==>
      PartChunks(p, maxSize, count) == [Chunk(count, TrimSpace(p.text), p.start, p.end, p.meta)]
  {
    var t := TrimSpace(p.text);
    if t != [] && |t| > maxSize {
      PackSound(Kept(p.pieces), "\n\n", maxSize, p.start);
      if Kept(p.pieces) == [] {
        KeptEmpty(p.pieces);
        JoinBlank(p.pieces, sep);
        assert false;
      }
    }
  }

  /** Nothing survives trimming only when every part is blank. */
  lemma {:induction false} KeptEmpty(parts: seq<String>)
    requires Kept(parts) == []
    ensures forall k :: 0 <= k < |parts| ==> IsBlank(parts[k])
    decreases |parts|
  {
    if |parts| > 0 {
      KeptSnoc(parts);
      KeptEmpty(parts[..|parts| - 1]);
      assert forall k :: 0 <= k < |parts| - 1 ==> parts[k] == parts[..|parts| - 1][k];
    }
  }

  lemma {:induction false} JoinBlank(parts: seq<String>, sep: String)
    requires IsBlank(sep) && forall k :: 0 <= k < |parts| ==> IsBlank(parts[k])
    ensures IsBlank(Join(parts, sep))
    decreases |parts|
  {
    if |parts| > 1 {
      JoinBlank(parts[..|parts| - 1], sep);
    }
  }

  lemma ChunkPartsSnoc<M>(parts: seq<Part<M>>, i: int, maxSize: int)
    requires 0 <= i < |parts|
    ensures ChunkParts(parts[..i + 1], maxSize) == ChunkParts(parts[..i], maxSize) + PartChunks(parts[i], maxSize, |ChunkParts(parts[..i], maxSize)|)
  {
    assert parts[..i + 1][..i] == parts[..i];
  }

  /** One section of the loop: drop it, keep it whole, or pack its paragraphs. */
  method ChunkPart<M>(chunks: seq<Chunk<M>>, p: Part<M>, maxSize: int) returns (r: seq<Chunk<M>>)
    ensures r == chunks + PartChunks(p, maxSize, |chunks|)
  {
    hide Pack, Kept, Sections.Number;
    var text := TrimSpace(p.text);
    if text == [] {
      r := chunks;
    } else if |text| > maxSize {
      var spans := PackTrimmed(p.pieces, "\n\n", maxSize, p.start);
      r := Sections.AppendSpans(chunks, spans, p.meta);
    } else {
      r := chunks + [Chunk(|chunks|, text, p.start, p.end, p.meta)];
    }
  }

  /** The chunking loop over the sections. */
  method ChunkAll<M>(parts: seq<Part<M>>, maxSize: int) returns (chunks: seq<Chunk<M>>)
    ensures chunks == ChunkParts(parts, maxSize)
  {
    hide PartChunks;
    chunks := [];
    for i := 0 to |parts|
      invariant chunks == ChunkParts(parts[..i], maxSize)
    {
      ChunkPartsSnoc(parts, i, maxSize);
      chunks := ChunkPart(chunks, parts[i], maxSize);
    }
    assert parts[..|parts|] == parts;
  }

  // ---------------------------------------------------------------------
  // The heading-section builder of DOCX and ODT

  /** `DocumentMetadata` of a DOCX or ODT chunk. */
  datatype Doc = Doc(heading: String, level: int, path: String)

  /** A document element as the builder sees it: a heading with its outline level, or a paragraph. */
  datatype Item = Heading(level: int, title: String) | Para(text: String)

  /** Headings have a positive level. */
  predicate Leveled(items: seq<Item>)
  {
    forall it :: it in items && it.Heading? ==> it.level > 0
  }

  /** `docxSection` / `odtSection`. */
  datatype Section = Section(heading: String, level: int, text: String, path: String, start: int, end: int)

  /** The variables of `extractSections`: the sections so far, the open section, the heading stack, the offset. */
  datatype Builder = Builder(sections: seq<Section>, heading: String, level: int, text: String, path: String,
                             start: int, stack: seq<String>, offset: int)

  const Root := Builder([], [], 0, [], [], 0, [], 0)

  /** Save the open section if its text is not blank. */
  function Close(b: Builder): seq<Section>
  {
    if TrimSpace(b.text) != [] then b.sections + [Section(b.heading, b.level, b.text, b.path, b.start, b.offset)]
    else b.sections
  }

  /** The heading stack after popping while it holds `level` titles or more. */
  function Popped(stack: seq<String>, level: int): seq<String>
    requires level > 0
  {
    if |stack| >= level then Popped(stack[..|stack| - 1], level) else stack
  }

  /** Popping leaves the first `level - 1` titles, or the whole stack if shorter. */
  lemma {:induction false} PoppedPrefix(stack: seq<String>, level: int)
    requires level > 0
    ensures var r := Popped(stack, level);
      |r| < level && r == stack[..|r|] && (|stack| >= level - 1 ==> |r| == level - 1) && (|stack| < level ==> r == stack)
  {
    if |stack| >= level {
      PoppedPrefix(stack[..|stack| - 1], level);
    }
  }

  /** The `for len(headingStack) >= level` loop. */
  method PopHeadings(stack: seq<String>, level: int) returns (r: seq<String>)
    requires level > 0
    ensures r == Popped(stack, level)
  {
    r := stack;
    while |r| >= level
      invariant Popped(r, level) == Popped(stack, level)
    {
      r := r[..|r| - 1];
    }
  }

  function Add(b: Builder, item: Item): Builder
    requires item.Heading? ==> item.level > 0
  {
    match item
    case Heading(level, title) =>
      var stack := Popped(b.stack, level) + [title];
      Builder(Close(b), title, level, title + "\n\n", Join(stack, " > "), b.offset, stack, b.offset + |title| + 2)
    case Para(text) =>
      b.(text := b.text + text + "\n\n", offset := b.offset + |text| + 2)
  }

  function Build(items: seq<Item>): Builder
    requires Leveled(items)
  {
    if |items| == 0 then Root else Add(Build(items[..|items| - 1]), items[|items| - 1])
  }

  /** `extractSections`. */
  function SectionsOf(items: seq<Item>): seq<Section>
    requires Leveled(items)
  {
    Close(Build(items))
  }

  function ItemText(item: Item): String
  {
    match item
    case Heading(_, title) => title
    case Para(text) => text
  }

  /** The document as the offsets count it: each element's text followed by a blank line. */
  function Flat(items: seq<Item>): String
  {
    if |items| == 0 then [] else Flat(items[..|items| - 1]) + ItemText(items[|items| - 1]) + "\n\n"
  }

  /** A section holds non-blank text, found at its offsets in `flat`. */
  predicate SectionAt(s: Section, flat: String)
  {
    TrimSpace(s.text) != [] && 0 <= s.start <= s.end <= |flat| && flat[s.start..s.end] == s.text
  }

  /** The sections are non-blank, sit at their offsets in `flat`, in order, before `bound`. */
  predicate Laid(sections: seq<Section>, flat: String, bound: int)
  {
    && (forall k :: 0 <= k < |sections| ==> SectionAt(sections[k], flat) && sections[k].end <= bound)
    && (forall k :: 0 < k < |sections| ==> sections[k - 1].end <= sections[k].start)
  }

  /** The offsets of the builder: the open section is the tail of the document read so far. */
  predicate Tracks(b: Builder, flat: String)
  {
    && b.offset == |flat| && 0 <= b.start <= |flat| && flat[b.start..] == b.text
    && Laid(b.sections, flat, b.start)
  }

  lemma LaidGrows(sections: seq<Section>, flat: String, more: String, bound: int)
    requires Laid(sections, flat, bound)
    ensures Laid(sections, flat + more, bound)
  {
    hide TrimSpace;
    forall k | 0 <= k < |sections| ensures SectionAt(sections[k], flat + more) {
      assert SectionAt(sections[k], flat);
      SliceOfPrefix(flat, more, sections[k].start, sections[k].end);
    }
  }

  lemma CloseLaid(b: Builder, flat: String)
    requires Tracks(b, flat)
    ensures Laid(Close(b), flat, b.offset)
  {
    hide TrimSpace;
    if TrimSpace(b.text) != [] {
      var s := Section(b.heading, b.level, b.text, b.path, b.start, b.offset);
      assert flat[b.start..b.offset] == b.text;
      assert SectionAt(s, flat);
      var ss := b.sections + [s];
      forall k | 0 < k < |ss| ensures ss[k - 1].end <= ss[k].start {
      }
    }
  }

  lemma AddTracks(b: Builder, item: Item, flat: String)
    requires item.Heading? ==> item.level > 0
    requires Tracks(b, flat)
    ensures Tracks(Add(b, item), flat + ItemText(item) + "\n\n")
  {
    hide TrimSpace, Join, Popped, Laid, Close;
    var more := ItemText(item) + "\n\n";
    var flat' := flat + ItemText(item) + "\n\n";
    assert flat' == flat + more;
    match item
    case Heading(level, title) =>
      CloseLaid(b, flat);
      LaidGrows(Close(b), flat, more, b.offset);
      assert flat'[b.offset..] == title + "\n\n";
    case Para(text) =>
      LaidGrows(b.sections, flat, more, b.start);
      assert flat'[b.start..] == flat[b.start..] + more;
  }

  lemma {:induction false} BuildTracks(items: seq<Item>)
    requires Leveled(items)
    ensures Tracks(Build(items), Flat(items))
    decreases |items|
  {
    if |items| > 0 {
      var init := items[..|items| - 1];
      assert Leveled(init);
      BuildTracks(init);
      AddTracks(Build(init), items[|items| - 1], Flat(init));
    }
  }

  /**
   * Every section holds non-blank text, which is the document's text between
   * its offsets (each element adding its length plus 2), and the sections
   * come in order without overlap.
   */
  lemma SectionsLaid(items: seq<Item>)
    requires Leveled(items)
    ensures Laid(SectionsOf(items), Flat(items), |Flat(items)|)
  {
    BuildTracks(items);
    CloseLaid(Build(items), Flat(items));
  }

  /** The heading stack is no deeper than the open section's level, and the path is the stack joined with " > ". */
  predicate Stacked(b: Builder)
  {
    |b.stack| <= b.level && b.path == Join(b.stack, " > ")
  }

  lemma {:induction false} BuildStacked(items: seq<Item>)
    requires Leveled(items)
    ensures Stacked(Build(items))
    decreases |items|
  {
    if |items| > 0 {
      var init := items[..|items| - 1];
      assert Leveled(init);
      BuildStacked(init);
      var b := Build(init);
      match items[|items| - 1]
      case Heading(level, title) =>
        PoppedPrefix(b.stack, level);
      case Para(_) =>
    }
  }

  /**
   * A heading saves the open section if it is not blank and opens a section
   * at the current offset; the stack keeps the titles above the heading's
   * level, ends with its title, and is no deeper than its level.
   */
  lemma HeadingOpens(b: Builder, level: int, title: String)
    requires level > 0
    ensures var b' := Add(b, Heading(level, title));
      var n := |b'.stack|;
      && b'.sections == Close(b)
      && (TrimSpace(b.text) != [] <==> |b'.sections| == |b.sections| + 1)
      && b'.heading == title && b'.level == level && b'.start == b.offset && b'.text == title + "\n\n"
      && 0 < n <= level && b'.stack[n - 1] == title && b'.stack[..n - 1] == b.stack[..n - 1]
      && (|b.stack| >= level - 1 ==> n == level)
      && b'.path == Join(b'.stack, " > ")
  {
    PoppedPrefix(b.stack, level);
    var p := Popped(b.stack, level);
    assert (p + [title])[..|p|] == p;
  }

  /** The heading path of every section is its stack joined with " > ", and the stack is no deeper than its level. */
  lemma SectionsStacked(items: seq<Item>)
    requires Leveled(items)
    ensures var b := Build(items); |b.stack| <= b.level && b.path == Join(b.stack, " > ")
  {
    BuildStacked(items);
  }

  /** One element of the loop of `extractSections`. */
  method AddItem(b: Builder, item: Item) returns (b': Builder)
    requires item.Heading? ==> item.level > 0
    ensures b' == Add(b, item)
  {
    hide TrimSpace, Popped, Join;
    match item
    case Heading(level, title) =>
      b' := b;
      if TrimSpace(b.text) != [] {
        b' := b'.(sections := b.sections + [Section(b.heading, b.level, b.text, b.path, b.start, b.offset)]);
      }
      var stack := PopHeadings(b.stack, level);
      stack := stack + [title];
      b' := Builder(b'.sections, title, level, title + "\n\n", Join(stack, " > "), b.offset, stack, b.offset + |title| + 2);
    case Para(text) =>
      b' := b.(text := b.text + text + "\n\n", offset := b.offset + |text| + 2);
  }

  /** `extractSections`. */
  method ExtractSections(items: seq<Item>) returns (sections: seq<Section>)
    requires Leveled(items)
    ensures sections == SectionsOf(items)
  {
    var b := Root;
    for i := 0 to |items|
      invariant Leveled(items[..i]) && b == Build(items[..i])
    {
      assert items[..i + 1][..i] == items[..i];
      b := AddItem(b, items[i]);
    }
    assert items[..|items|] == items;
    sections := Close(b);
  }

  /** A section as the chunking loop sees it: its paragraphs are its text split at blank lines. */
  function PartOf(s: Section): Part<Doc>
  {
    Part(s.text, Split(s.text, "\n\n"), s.start, s.end, Doc(s.heading, s.level, s.path))
  }

  function Parts(sections: seq<Section>): (r: seq<Part<Doc>>)
    ensures |r| == |sections| && forall k :: 0 <= k < |r| ==> r[k] == PartOf(sections[k])
  {
    seq(|sections|, k requires 0 <= k < |sections| => PartOf(sections[k]))
  }

  /** Sections laid out in the document give parts in order, each spanning its text. */
  lemma PartsOrdered(sections: seq<Section>, flat: String, bound: int)
    requires Laid(sections, flat, bound)
    ensures Ordered(Parts(sections), 0)
  {
    hide Spanned, SectionAt, PartOf;
    var parts := Parts(sections);
    forall i | 0 <= i < |parts| ensures Spanned(parts[i]) && 0 <= parts[i].start {
      PartSpanned(sections[i], flat);
    }
    forall i | 0 < i < |parts| ensures parts[i - 1].end <= parts[i].start {
      PartBounds(sections[i - 1]);
      PartBounds(sections[i]);
    }
  }

  lemma PartBounds(s: Section)
    ensures PartOf(s).start == s.start && PartOf(s).end == s.end
  {
  }

  /** A section at its offsets gives a part that spans its text. */
  lemma PartSpanned(s: Section, flat: String)
    requires SectionAt(s, flat)
    ensures Spanned(PartOf(s)) && 0 <= PartOf(s).start
  {
    hide Kept, Split, Join, TrimSpace;
    JoinSplit(s.text, "\n\n");
    KeptShorter(Split(s.text, "\n\n"), "\n\n");
  }

  /** The sections' chunks, from the elements. */
  function ChunkItems(items: seq<Item>, maxSize: int): seq<Chunk<Doc>>
    requires Leveled(items)
  {
    ChunkParts(Parts(SectionsOf(items)), maxSize)
  }

  /**
   * The chunks of a document are numbered 0, 1, ... in order without
   * overlap, each within the document's extent, and only a single paragraph
   * may exceed the limit.
   */
  lemma ChunkItemsSound(items: seq<Item>, maxSize: int)
    requires Leveled(items)
    ensures var cs := ChunkItems(items, maxSize);
      && Placed(cs, 0, |Flat(items)|, 0)
      && AllWithin(cs, Parts(SectionsOf(items)), maxSize)
  {
    var sections := SectionsOf(items);
    var parts := Parts(sections);
    SectionsLaid(items);
    PartsOrdered(sections, Flat(items), |Flat(items)|);
    ChunkPartsPlaced(parts, maxSize, 0);
    ChunkPartsWithin(parts, maxSize);
    assert Reach(parts, 0) <= |Flat(items)| by {
      if |parts| > 0 {
        assert SectionAt(sections[|sections| - 1], Flat(items));
      }
    }
    var cs := ChunkParts(parts, maxSize);
    forall k | 0 <= k < |cs| ensures cs[k].end <= |Flat(items)| {
    }
  }
}
