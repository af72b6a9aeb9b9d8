/**
 * The HCL / Terraform chunker (internal/chunkers/hcl.go). The parser reports
 * the top-level blocks of the Terraform schema; each block runs from its
 * header to the brace that closes it, found by a brace count that skips
 * quoted strings. Blocks become chunks through the shared unit loop; when the
 * parser gives up, the whole text is packed by lines.
 */
module Hcl {
  import opened Text
  import opened Wrappers
  import opened Chunks
  import opened Packing
  import opened Sections

  const Name: String := "hcl"

  /** `InfraMetadata`: the block type and the labels the chunk came from. */
  datatype Infra = Infra(blockType: String, resourceType: String, resourceName: String)

  /** The metadata of the fallback chunks and of a file without blocks. */
  const Unknown := Infra("unknown", "", "")

  const MimeTypes: seq<String> := ["text/x-hcl", "application/x-hcl", "text/x-terraform", "application/x-terraform"]

  /** `CanHandle`: an HCL or Terraform MIME type, or a `.tf`, `.tfvars` or `.hcl` name, ignoring case. */
  predicate CanHandle(mimeType: String, language: String)
  {
    var lang := ToLower(language);
    var mime := ToLower(mimeType);
    mime in MimeTypes || HasSuffix(lang, ".tf") || HasSuffix(lang, ".tfvars") || HasSuffix(lang, ".hcl")
  }

  lemma LowerUpper(s: String)
    ensures ToLower(ToUpper(s)) == ToLower(s)
  {
    forall i | 0 <= i < |s| ensures ToLower(ToUpper(s))[i] == ToLower(s)[i] {
      var c := s[i];
      assert ToUpper(s)[i] == UpperChar(c);
    }
  }

  /** Upper-casing the MIME type or the name does not change the answer. */
  lemma CanHandleIgnoresCase(mimeType: String, language: String)
    ensures CanHandle(ToUpper(mimeType), ToUpper(language)) == CanHandle(mimeType, language)
  {
    LowerUpper(mimeType);
    LowerUpper(language);
  }

  /** A Terraform file is recognised by its name in any case, an HCL MIME type in any case. */
  lemma CanHandleExamples()
    ensures CanHandle("", "MAIN.TF")
    ensures CanHandle("Text/X-HCL", "")
  {
    assert ToLower("MAIN.TF") == "main.tf";
    assert ToLower("Text/X-HCL") == "text/x-hcl";
  }

  /** A Terraform JSON file is not handled. */
  lemma TerraformJsonNotHandled()
    ensures !CanHandle("application/json", "main.tf.json")
  {
    assert ToLower("main.tf.json") == "main.tf.json";
    assert ToLower("application/json") == "application/json";
  }

  // ---------------------------------------------------------------------
  // findBlockEnd

  /** The loop variables of `findBlockEnd`: brace depth, inside a string, after a backslash, seen a `{`. */
  datatype Scan = Scan(depth: int, inString: bool, escaped: bool, found: bool)

  const Fresh := Scan(0, false, false, false)

  /** One character of the scan, when it does not end the block. */
  function Feed(s: Scan, ch: char): Scan
  {
    if s.escaped then s.(escaped := false)
    else if ch == '\\' && s.inString then s.(escaped := true)
    else if ch == '"' then s.(inString := !s.inString)
    else if s.inString then s
    else if ch == '{' then s.(depth := s.depth + 1, found := true)
    else if ch == '}' then s.(depth := s.depth - 1)
    else s
  }

  /** `ch` is a closing brace outside a string that brings the count back to zero after a `{`. */
  predicate Closes(s: Scan, ch: char)
  {
    !s.escaped && !s.inString && ch == '}' && s.found && s.depth - 1 == 0
  }

  /** The state after scanning `text` from `s`. */
  function ScanOver(s: Scan, text: String): Scan
    decreases |text|
  {
    if |text| == 0 then s else Feed(ScanOver(s, text[..|text| - 1]), text[|text| - 1])
  }

  /** The scan from position `i` in state `s`: just past the closing brace, or the end of the text. */
  function EndFrom(content: String, i: nat, s: Scan): (r: int)
    requires i <= |content|
    ensures i <= r <= |content|
    decreases |content| - i
  {
    if i == |content| then |content|
    else if Closes(s, content[i]) then i + 1
    else EndFrom(content, i + 1, Feed(s, content[i]))
  }

  /** `findBlockEnd(content, start)`. */
  function BlockEnd(content: String, start: nat): (r: int)
    ensures r <= |content| && (start <= |content| ==> start <= r)
  {
    if start >= |content| then |content| else EndFrom(content, start, Fresh)
  }

  /** The block starting at `start` closes with the character before `j`. */
  predicate Closing(content: String, start: nat, j: int)
  {
    start < j <= |content| && Closes(ScanOver(Fresh, content[start..j - 1]), content[j - 1])
  }

  lemma {:induction false} EndFromFirst(content: String, start: nat, i: nat, s: Scan)
    requires start <= i <= |content| && s == ScanOver(Fresh, content[start..i])
    requires forall j :: start < j <= i ==> !Closing(content, start, j)
    ensures var r := EndFrom(content, i, s);
      && (r == |content| || Closing(content, start, r))
      && forall j :: start < j < r ==> !Closing(content, start, j)
    decreases |content| - i
  {
    if i < |content| {
      if Closes(s, content[i]) {
        assert content[start..i + 1 - 1] == content[start..i];
      } else {
        var t := content[start..i + 1];
        assert t[..|t| - 1] == content[start..i] && t[|t| - 1] == content[i];
        assert content[start..i + 1 - 1] == content[start..i];
        assert !Closing(content, start, i + 1);
        EndFromFirst(content, start, i + 1, Feed(s, content[i]));
      }
    }
  }

  /**
   * `findBlockEnd` returns one past the first brace that brings the count
   * back to zero after the first `{`, or the length of the text when there
   * is none.
   */
  lemma BlockEndFirst(content: String, start: nat)
    ensures var r := BlockEnd(content, start);
      && (r == |content| || Closing(content, start, r))
      && forall j :: start < j < r ==> !Closing(content, start, j)
  {
    if start < |content| {
      assert content[start..start] == [];
      EndFromFirst(content, start, start, Fresh);
    }
  }

  /** At the brace that ends the block the count is back to zero, outside any string. */
  lemma ClosingBalances(content: String, start: nat, j: int)
    requires Closing(content, start, j)
    ensures ScanOver(Fresh, content[start..j]) == Scan(0, false, false, true)
  {
    var t := content[start..j];
    assert t[..|t| - 1] == content[start..j - 1];
  }

  lemma {:induction false} FoundNeedsBrace(s: Scan, text: String)
    requires !s.found && ScanOver(s, text).found
    ensures exists i :: 0 <= i < |text| && text[i] == '{'
    decreases |text|
  {
    var init := text[..|text| - 1];
    if ScanOver(s, init).found {
      FoundNeedsBrace(s, init);
      var i :| 0 <= i < |init| && init[i] == '{';
      assert text[i] == '{';
    }
  }

  /** Without a `{` after `start`, the block runs to the end of the text. */
  lemma NoBraceRunsToEnd(content: String, start: nat)
    requires forall i :: start <= i < |content| ==> content[i] != '{'
    ensures BlockEnd(content, start) == |content|
  {
    BlockEndFirst(content, start);
    var r := BlockEnd(content, start);
    if r != |content| {
      var text := content[start..r - 1];
      FoundNeedsBrace(Fresh, text);
    }
  }

  lemma {:induction false} ScanAppend(s: Scan, a: String, b: String)
    ensures ScanOver(s, a + b) == ScanOver(ScanOver(s, a), b)
    decreases |b|
  {
    if |b| == 0 {
      assert a + b == a;
    } else {
      var init := b[..|b| - 1];
      ScanAppend(s, a, init);
      assert (a + b)[..|a + b| - 1] == a + init;
    }
  }

  /** Inside a string, text without quotes or backslashes changes nothing: its braces are not counted. */
  lemma {:induction false} QuotedInert(s: Scan, text: String)
    requires s.inString && !s.escaped
    requires forall i :: 0 <= i < |text| ==> text[i] != '"' && text[i] != '\\'
    ensures ScanOver(s, text) == s
    decreases |text|
  {
    if |text| > 0 {
      QuotedInert(s, text[..|text| - 1]);
    }
  }

  /** A whole string literal, braces and all, leaves the scan where it was. */
  lemma QuotedLiteral(s: Scan, text: String)
    requires !s.inString && !s.escaped
    requires forall i :: 0 <= i < |text| ==> text[i] != '"' && text[i] != '\\'
    ensures ScanOver(s, ['"'] + text + ['"']) == s
  {
    var open := s.(inString := true);
    assert ScanOver(s, ['"']) == open by {
      assert ['"'][..0] == [];
    }
    ScanAppend(s, ['"'], text);
    QuotedInert(open, text);
    ScanAppend(s, ['"'] + text, ['"']);
    assert ScanOver(open, ['"']) == s by {
      assert ['"'][..0] == [];
    }
  }

  /** Inside a string, an escaped quote neither ends the string nor counts. */
  lemma EscapedQuote(s: Scan)
    requires s.inString && !s.escaped
    ensures ScanOver(s, "\\\"") == s
  {
    assert "\\\""[..1] == "\\";
    assert "\\"[..0] == [];
  }

  /** The loop of `findBlockEnd`. */
  method FindBlockEnd(content: String, start: nat) returns (r: int)
    ensures r == BlockEnd(content, start)
  {
    var depth := 0;
    var inString := false;
    var escaped := false;
    var found := false;
    var i := start;
    while i < |content|
      invariant start <= i && (i <= |content| || i == start)
      invariant i <= |content| ==> EndFrom(content, i, Scan(depth, inString, escaped, found)) == BlockEnd(content, start)
      decreases |content| - i
    {
      var ch := content[i];
      if escaped {
        escaped := false;
      } else if ch == '\\' && inString {
        escaped := true;
      } else if ch == '"' {
        inString := !inString;
      } else if !inString {
        if ch == '{' {
          depth := depth + 1;
          found := true;
        } else if ch == '}' {
          depth := depth - 1;
          if found && depth == 0 {
            return i + 1;
          }
        }
      }
      i := i + 1;
    }
    return |content|;
  }

  // ---------------------------------------------------------------------
  // extractBlocks

  /** A block the parser reports: its type, its labels and the offset of its header. */
  datatype Parsed = Parsed(blockType: String, labels: seq<String>, start: nat)

  /** `hclBlock`. */
  datatype Block = Block(info: Infra, content: String, start: int, end: int)

  /** The label switch of `extractBlocks`. */
  function Describe(p: Parsed): Infra
  {
    if p.blockType in ["resource", "data"] then
      if |p.labels| >= 2 then Infra(p.blockType, p.labels[0], p.labels[1])
      else if |p.labels| >= 1 then Infra(p.blockType, p.labels[0], "")
      else Infra(p.blockType, "", "")
    else if p.blockType in ["provider", "variable", "output", "module"] then
      Infra(p.blockType, "", if |p.labels| >= 1 then p.labels[0] else "")
    else Infra(p.blockType, "", "")
  }

  /**
   * The type is kept; a resource type is the first label of a `resource` or
   * `data` block; a name is the second label of those or the first of a
   * named block; every other field is empty.
   */
  lemma DescribeLabels(p: Parsed)
    ensures Describe(p).blockType == p.blockType
    ensures Describe(p).resourceType != [] ==> p.blockType in ["resource", "data"] && Describe(p).resourceType == p.labels[0]
    ensures Describe(p).resourceName != [] ==>
      (p.blockType in ["resource", "data"] && |p.labels| >= 2 && Describe(p).resourceName == p.labels[1])
      || (p.blockType in ["provider", "variable", "output", "module"] && Describe(p).resourceName == p.labels[0])
    ensures p.blockType == "resource" && |p.labels| == 2 ==> Describe(p) == Infra("resource", p.labels[0], p.labels[1])
  {
  }

  /** Every reported block starts inside the text, as the slice in `extractBlocks` demands. */
  predicate Inside(content: String, parsed: seq<Parsed>)
  {
    forall k :: 0 <= k < |parsed| ==> parsed[k].start <= |content|
  }

  function BlockOf(content: String, p: Parsed): Block
    requires p.start <= |content|
  {
    var e := BlockEnd(content, p.start);
    Block(Describe(p), content[p.start..e], p.start, e)
  }

  function BlocksOf(content: String, parsed: seq<Parsed>): (r: seq<Block>)
    requires Inside(content, parsed)
    ensures |r| == |parsed|
  {
    seq(|parsed|, k requires 0 <= k < |parsed| => BlockOf(content, parsed[k]))
  }

  /** `extractBlocks`: one block per reported block, or the whole text as one unknown block. */
  function Extracted(content: String, parsed: seq<Parsed>): seq<Block>
    requires Inside(content, parsed)
  {
    if |parsed| == 0 then [Block(Unknown, content, 0, |content|)] else BlocksOf(content, parsed)
  }

  /**
   * Each block is the text between its offsets; a reported block starts at
   * its header, carries its labels, and ends just past its closing brace, or
   * at the end of the text when the braces never balance.
   */
  lemma ExtractedShape(content: String, parsed: seq<Parsed>)
    requires Inside(content, parsed)
    ensures var bs := Extracted(content, parsed);
      && |bs| == (if |parsed| == 0 then 1 else |parsed|)
      && (forall k :: 0 <= k < |bs| ==> 0 <= bs[k].start <= bs[k].end <= |content| && bs[k].content == content[bs[k].start..bs[k].end])
      && (|parsed| == 0 ==> bs == [Block(Unknown, content, 0, |content|)])
      && forall k :: 0 <= k < |parsed| ==>
           && bs[k].start == parsed[k].start && bs[k].info == Describe(parsed[k])
           && (bs[k].end == |content| || Closing(content, parsed[k].start, bs[k].end))
           && forall j :: parsed[k].start < j < bs[k].end ==> !Closing(content, parsed[k].start, j)
  {
    forall k | 0 <= k < |parsed|
      ensures var e := BlockEnd(content, parsed[k].start);
        (e == |content| || Closing(content, parsed[k].start, e)) && forall j :: parsed[k].start < j < e ==> !Closing(content, parsed[k].start, j)
    {
      BlockEndFirst(content, parsed[k].start);
    }
  }

  /** The loop of `extractBlocks`. */
  method ExtractBlocks(content: String, parsed: seq<Parsed>) returns (blocks: seq<Block>)
    requires Inside(content, parsed)
    ensures blocks == Extracted(content, parsed)
  {
    if |parsed| == 0 {
      return [Block(Unknown, content, 0, |content|)];
    }
    blocks := [];
    for k := 0 to |parsed|
      invariant blocks == BlocksOf(content, parsed[..k])
    {
      var p := parsed[k];
      var e := FindBlockEnd(content, p.start);
      blocks := blocks + [Block(Describe(p), content[p.start..e], p.start, e)];
      assert parsed[..k + 1] == parsed[..k] + [p];
    }
    assert parsed[..|parsed|] == parsed;
  }

  // ---------------------------------------------------------------------
  // Chunk

  /** The blocks as units of the shared loop, each split by lines when too large. */
  function Units(blocks: seq<Block>): (r: seq<Unit<Infra>>)
    ensures |r| == |blocks| && LineUnits(r)
    ensures forall k :: 0 <= k < |r| ==> r[k].content == blocks[k].content && r[k].meta == blocks[k].info
  {
    seq(|blocks|, k requires 0 <= k < |blocks| => LineUnit(blocks[k].content, blocks[k].info))
  }

  /** `Chunk`; `parsed` is `None` when the parser returns no file at all. */
  function ChunkHcl(content: String, maxSize: int, parsed: Option<seq<Parsed>>): ChunkResult<Infra>
    requires parsed.Some? ==> Inside(content, parsed.value)
  {
    if |content| == 0 then EmptyResult(Name)
    else
      var chunks :=
        match parsed
        case None => LineChunks(content, Limit(maxSize), Unknown)
        case Some(ps) => Assemble(Units(Extracted(content, ps)), Limit(maxSize), 0, 0);
      ChunkResult(chunks, |chunks|, Name, |content|)
  }

  /** The text the offsets of `Chunk` count through: the blocks' texts end to end. */
  function BlockText(content: String, ps: seq<Parsed>): String
    requires Inside(content, ps)
  {
    Whole(Units(Extracted(content, ps)))
  }

  /**
   * With parsed blocks, the chunks are numbered from 0, each is the text at
   * its own offsets in the blocks' texts laid end to end, they come in order
   * without overlap, and one exceeds the limit only when it is a single line
   * of its block.
   */
  lemma ParsedChunksSound(content: String, maxSize: int, ps: seq<Parsed>)
    requires Inside(content, ps) && |content| > 0
    ensures var r := ChunkHcl(content, maxSize, Some(ps));
      && r.totalChunks == |r.chunks| && r.originalSize == |content| && r.chunkerUsed == Name
      && Sequential(r.chunks) && Widths(r.chunks)
      && Laid(r.chunks, 0, |BlockText(content, ps)|, 0)
      && TextAt(r.chunks, BlockText(content, ps), 0)
      && forall k :: 0 <= k < |r.chunks| ==>
           (|r.chunks[k].content| <= Limit(maxSize)
            || exists i :: 0 <= i < |Extracted(content, ps)| && r.chunks[k].content in Split(Extracted(content, ps)[i].content, "\n"))
  {
    var blocks := Extracted(content, ps);
    var units := Units(blocks);
    AssembleSound(units, Limit(maxSize));
  }

  /**
   * After a parse failure the chunks, joined with `"\n"`, are the text; they
   * are numbered from 0, sit at their own offsets in the text, come in order,
   * and exceed the limit only when a chunk is a single line.
   */
  lemma FallbackChunksSound(content: String, maxSize: int)
    requires |content| > 0
    ensures var r := ChunkHcl(content, maxSize, None);
      && r.totalChunks == |r.chunks| > 0 && r.originalSize == |content| && r.chunkerUsed == Name
      && Join(Pieces(r.chunks), "\n") == content
      && Sequential(r.chunks) && Widths(r.chunks)
      && Laid(r.chunks, 0, |content|, 0)
      && TextAt(r.chunks, content, 0)
      && forall k :: 0 <= k < |r.chunks| ==>
           r.chunks[k].meta == Unknown && (|r.chunks[k].content| <= Limit(maxSize) || r.chunks[k].content in Split(content, "\n"))
  {
    LineChunksSound(content, Limit(maxSize), Unknown);
  }

  /** A file without schema blocks that fits and is not blank is one unknown chunk. */
  lemma NoBlocksOneChunk(content: String, maxSize: int)
    requires 0 < |content| <= Limit(maxSize) && TrimSpace(content) != []
    ensures ChunkHcl(content, maxSize, Some([])).chunks == [Chunks.Chunk(0, content, 0, |content|, Unknown)]
  {
    var u := LineUnit(content, Unknown);
    assert Units(Extracted(content, [])) == [u];
    AssembleCons([u], Limit(maxSize), 0, 0);
    assert [u][1..] == [];
  }

  /** `Chunk`: the parse, the block extraction and the loop over the blocks. */
  method Chunk(content: String, maxSize: int, parsed: Option<seq<Parsed>>) returns (r: ChunkResult<Infra>)
    requires parsed.Some? ==> Inside(content, parsed.value)
    ensures r == ChunkHcl(content, maxSize, parsed)
  {
    if |content| == 0 {
      return EmptyResult(Name);
    }
    var m := if maxSize <= 0 then DefaultMaxChunkSize else maxSize;
    var chunks;
    if parsed.None? {
      chunks := LineChunksOf(content, m, Unknown);
    } else {
      var blocks := ExtractBlocks(content, parsed.value);
      chunks := EmitUnits(Units(blocks), m);
    }
    return ChunkResult(chunks, |chunks|, Name, |content|);
  }
}
