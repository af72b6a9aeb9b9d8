/**
 * The ODT chunker (internal/chunkers/odt.go). The elements parsed from
 * `content.xml` are an input; headings with a positive outline level open
 * sections, other non-empty elements are paragraphs, and the shared
 * heading-section builder and chunking loop do the rest.
 */
module Odt {
  import opened Text
  import opened Chunks
  import opened Wrappers
  import opened Outline

  const Name: String := "odt"

  const MimeType: String := "application/vnd.oasis.opendocument.text"

  /** `CanHandle`. */
  predicate CanHandle(mimeType: String, language: String)
  {
    mimeType == MimeType || HasSuffix(ToLower(language), ".odt")
  }

  /** `odtElement`. */
  datatype Element = Element(isHeading: bool, outlineLevel: int, text: String)

  /** An element as the builder sees it: a heading when it has a positive outline level, a paragraph when not empty. */
  function ItemOf(e: Element): (r: seq<Item>)
    ensures Leveled(r)
  {
    if e.isHeading && e.outlineLevel > 0 then [Heading(e.outlineLevel, e.text)]
    else if e.text != [] then [Para(e.text)]
    else []
  }

  function Items(elements: seq<Element>): (r: seq<Item>)
    ensures Leveled(r)
  {
    if |elements| == 0 then [] else Items(elements[..|elements| - 1]) + ItemOf(elements[|elements| - 1])
  }

  /** Every item comes from one element of the document. */
  lemma {:induction false} ItemsFromElements(elements: seq<Element>)
    ensures forall it :: it in Items(elements) ==> exists e :: e in elements && ItemOf(e) == [it]
    decreases |elements|
  {
    if |elements| > 0 {
      var init := elements[..|elements| - 1];
      var e := elements[|elements| - 1];
      ItemsFromElements(init);
      forall it | it in Items(elements) ensures exists e' :: e' in elements && ItemOf(e') == [it] {
        if it in Items(init) {
          var e' :| e' in init && ItemOf(e') == [it];
          assert e' in elements;
        } else {
          assert ItemOf(e) == [it];
        }
      }
    }
  }

  /** Every heading with a positive outline level, and every other non-empty element, is kept. */
  lemma {:induction false} ElementsKept(elements: seq<Element>)
    ensures forall e :: e in elements && e.isHeading && e.outlineLevel > 0 ==> Heading(e.outlineLevel, e.text) in Items(elements)
    ensures forall e :: e in elements && !(e.isHeading && e.outlineLevel > 0) && e.text != [] ==> Para(e.text) in Items(elements)
    decreases |elements|
  {
    if |elements| > 0 {
      var init := elements[..|elements| - 1];
      ElementsKept(init);
      assert forall e :: e in elements ==> e in init || e == elements[|elements| - 1];
    }
  }

  /**
   * `Chunk`. `size` is the length of the file; `elements` are the elements
   * of `content.xml`, `None` when the file is not a ZIP archive or has no
   * readable `content.xml`.
   */
  function ChunkOdt(size: nat, maxSize: int, elements: Option<seq<Element>>): Result<ChunkResult<Doc>>
  {
    if size == 0 then Ok(EmptyResult(Name))
    else if elements.None? then Err("failed to open ODT")
    else
      var chunks := ChunkItems(Items(elements.value), Limit(maxSize));
      Ok(ChunkResult(chunks, |chunks|, Name, size))
  }

  /**
   * Empty input gives no chunks; otherwise the chunks are numbered 0, 1, ...
   * in order without overlap within the document's text, and only a single
   * paragraph of a section may exceed the limit.
   */
  lemma ChunkOdtSound(size: nat, maxSize: int, elements: Option<seq<Element>>)
    ensures size == 0 ==> ChunkOdt(size, maxSize, elements) == Ok(EmptyResult(Name))
    ensures size > 0 && elements.None? ==> ChunkOdt(size, maxSize, elements).Err?
    ensures size > 0 && elements.Some? ==>
      var items := Items(elements.value);
      var r := ChunkOdt(size, maxSize, elements);
      && r.Ok? && r.value.totalChunks == |r.value.chunks| && r.value.originalSize == size
      && Placed(r.value.chunks, 0, |Flat(items)|, 0)
      && AllWithin(r.value.chunks, Parts(SectionsOf(items)), Limit(maxSize))
  {
    if size > 0 && elements.Some? {
      ChunkItemsSound(Items(elements.value), Limit(maxSize));
    }
  }

  /** `Chunk`. */
  method Chunk(size: nat, maxSize: int, elements: Option<seq<Element>>) returns (r: Result<ChunkResult<Doc>>)
    ensures r == ChunkOdt(size, maxSize, elements)
  {
    if size == 0 {
      return Ok(EmptyResult(Name));
    }
    if elements.None? {
      return Err("failed to open ODT");
    }
    var es := elements.value;
    var items: seq<Item> := [];
    for i := 0 to |es|
      invariant items == Items(es[..i])
    {
      assert es[..i + 1][..i] == es[..i];
      items := items + ItemOf(es[i]);
    }
    assert es[..|es|] == es;
    var m := if maxSize <= 0 then DefaultMaxChunkSize else maxSize;
    var sections := ExtractSections(items);
    var chunks := ChunkAll(Parts(sections), m);
    return Ok(ChunkResult(chunks, |chunks|, Name, size));
  }
}
