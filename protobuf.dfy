/**
 * The protobuf chunker (internal/chunkers/protobuf.go). The parser reports
 * the file's elements with their line numbers; the preamble (syntax,
 * package, imports, options) becomes one definition, and each message, enum
 * and service runs from its line to the line whose `}` balances its braces,
 * with the comment lines just above it prepended. Definitions become chunks
 * through the shared unit loop; a parse error packs the whole text by lines.
 */
module Protobuf {
  import opened Text
  import opened Wrappers
  import opened Chunks
  import opened Sections

  const Name: String := "protobuf"

  /** `SchemaMetadata`. */
  datatype Schema = Schema(messageName: String, serviceName: String, rpcName: String, typeKind: String)

  const UnknownSchema := Schema("", "", "", "unknown")

  /** A top-level element the parser reports, with its 1-based line. */
  datatype Element =
    | Syntax(line: int)
    | Package(line: int)
    | Import(line: int)
    | OptionStmt(line: int)
    | Message(name: String, line: int)
    | Enum(name: String, line: int)
    | Service(name: String, line: int)
    | OtherElement(line: int)

  predicate IsPreamble(e: Element)
  {
    e.Syntax? || e.Package? || e.Import? || e.OptionStmt?
  }

  predicate IsDefinition(e: Element)
  {
    e.Message? || e.Enum? || e.Service?
  }

  /** `protobufDefinition`: its schema fields and its text. */
  datatype Definition = Definition(schema: Schema, content: String)

  // ---------------------------------------------------------------------
  // findDefinitionEnd

  /** The brace count and whether a `{` was seen. */
  datatype Braces = Braces(depth: int, found: bool)

  function Brace(b: Braces, ch: char): Braces
  {
    if ch == '{' then Braces(b.depth + 1, true)
    else if ch == '}' then b.(depth := b.depth - 1)
    else b
  }

  /** `ch` is a `}` that brings the count back to zero after a `{`. */
  predicate Shuts(b: Braces, ch: char)
  {
    ch == '}' && b.found && b.depth - 1 == 0
  }

  /** How a line ends the scan: it holds the balancing brace, or the count carries on. */
  datatype LineEnd = Shut | Open(after: Braces)

  function RunLine(b: Braces, line: String): LineEnd
    decreases |line|
  {
    if |line| == 0 then Open(b)
    else if Shuts(b, line[0]) then Shut
    else RunLine(Brace(b, line[0]), line[1..])
  }

  function EndFrom(lines: seq<String>, i: nat, b: Braces): (r: int)
    requires i <= |lines|
    ensures i <= r <= |lines| && (i < |lines| ==> i < r)
    decreases |lines| - i
  {
    if i == |lines| then |lines|
    else match RunLine(b, lines[i])
      case Shut => i + 1
      case Open(after) => EndFrom(lines, i + 1, after)
  }

  /** `findDefinitionEnd`: one past the line whose `}` balances the braces opened from `start`, else the line count. */
  function DefinitionEnd(lines: seq<String>, start: nat): (r: int)
    ensures r <= |lines| && (start < |lines| ==> start < r)
  {
    if start >= |lines| then |lines| else EndFrom(lines, start, Braces(0, false))
  }

  lemma {:induction false} RunLineShuts(b: Braces, line: String)
    requires RunLine(b, line) == Shut
    ensures '}' in line
    decreases |line|
  {
    if !Shuts(b, line[0]) {
      RunLineShuts(Brace(b, line[0]), line[1..]);
    }
  }

  lemma {:induction false} RunLineNoBrace(b: Braces, line: String)
    requires !b.found
    requires forall j :: 0 <= j < |line| ==> line[j] != '{'
    ensures RunLine(b, line).Open? && !RunLine(b, line).after.found
    decreases |line|
  {
    if |line| > 0 {
      RunLineNoBrace(Brace(b, line[0]), line[1..]);
    }
  }

  lemma {:induction false} EndFromNoBrace(lines: seq<String>, i: nat, b: Braces)
    requires i <= |lines| && !b.found
    requires forall k, j :: i <= k < |lines| && 0 <= j < |lines[k]| ==> lines[k][j] != '{'
    ensures EndFrom(lines, i, b) == |lines|
    decreases |lines| - i
  {
    if i < |lines| {
      RunLineNoBrace(b, lines[i]);
      EndFromNoBrace(lines, i + 1, RunLine(b, lines[i]).after);
    }
  }

  /** Without a `{` from `start` on, the definition runs to the last line. */
  lemma NoBraceRunsToEnd(lines: seq<String>, start: nat)
    requires forall k, j :: start <= k < |lines| && 0 <= j < |lines[k]| ==> lines[k][j] != '{'
    ensures DefinitionEnd(lines, start) == |lines|
  {
    if start < |lines| {
      EndFromNoBrace(lines, start, Braces(0, false));
    }
  }

  lemma {:induction false} EndFromCloses(lines: seq<String>, i: nat, b: Braces)
    requires i <= |lines|
    ensures var r := EndFrom(lines, i, b); r == |lines| || '}' in lines[r - 1]
    decreases |lines| - i
  {
    if i < |lines| {
      match RunLine(b, lines[i])
      case Shut => RunLineShuts(b, lines[i]);
      case Open(after) => EndFromCloses(lines, i + 1, after);
    }
  }

  /** A definition that stops before the last line stops after a line holding a `}`. */
  lemma DefinitionEndCloses(lines: seq<String>, start: nat)
    ensures var r := DefinitionEnd(lines, start); r == |lines| || '}' in lines[r - 1]
  {
    if start < |lines| {
      assert DefinitionEnd(lines, start) == EndFrom(lines, start, Braces(0, false));
      EndFromCloses(lines, start, Braces(0, false));
    }
  }

  /** A one-line message ends after its own line; nested braces are counted. */
  lemma DefinitionEndExamples()
    ensures DefinitionEnd(["A{}", "B{"], 0) == 1
    ensures DefinitionEnd(["A{", "B{}", "}", "C"], 0) == 3
  {
    assert RunLine(Braces(0, false), "A{}") == Shut;
    assert RunLine(Braces(0, false), "A{") == Open(Braces(1, true));
    assert RunLine(Braces(1, true), "B{}") == Open(Braces(1, true));
    assert RunLine(Braces(1, true), "}") == Shut;
  }

  /** The nested loops of `findDefinitionEnd`. */
  method FindDefinitionEnd(lines: seq<String>, start: nat) returns (r: int)
    ensures r == DefinitionEnd(lines, start)
  {
    var depth := 0;
    var found := false;
    var i := start;
    while i < |lines|
      invariant start <= i && (i <= |lines| || i == start)
      invariant i <= |lines| ==> EndFrom(lines, i, Braces(depth, found)) == DefinitionEnd(lines, start)
      decreases |lines| - i
    {
      var line := lines[i];
      ghost var b0 := Braces(depth, found);
      var j := 0;
      while j < |line|
        invariant 0 <= j <= |line|
        invariant RunLine(b0, line) == RunLine(Braces(depth, found), line[j..])
      {
        var ch := line[j];
        assert line[j..][1..] == line[j + 1..];
        if ch == '{' {
          depth := depth + 1;
          found := true;
        } else if ch == '}' {
          depth := depth - 1;
          if found && depth == 0 {
            return i + 1;
          }
        }
        j := j + 1;
      }
      i := i + 1;
    }
    return |lines|;
  }

  // ---------------------------------------------------------------------
  // includeComments

  /** A trimmed line that `includeComments` takes for a comment. */
  predicate IsComment(t: String)
  {
    HasPrefix(t, "//") || HasPrefix(t, "/*") || HasSuffix(t, "*/")
  }

  predicate CommentLine(line: String)
  {
    IsComment(TrimSpace(line))
  }

  /** Neither a comment nor blank: the line that stops the upward scan. */
  predicate Stops(line: String)
  {
    !CommentLine(line) && TrimSpace(line) != []
  }

  /** The upward scan from line `i` with the topmost comment line so far at `top`. */
  function ScanUp(lines: seq<String>, i: int, top: int): (r: int)
    requires -1 <= i < |lines| && i < top
    ensures r == top || 0 <= r <= i
    decreases i + 1
  {
    if i < 0 then top
    else if CommentLine(lines[i]) then ScanUp(lines, i - 1, i)
    else if TrimSpace(lines[i]) == [] then ScanUp(lines, i - 1, top)
    else top
  }

  /** The first line of the comments just above `start`, or `start` when there are none. */
  function CommentStart(lines: seq<String>, start: nat): (r: int)
    requires start <= |lines|
    ensures 0 <= r <= start
  {
    ScanUp(lines, start - 1, start)
  }

  /** `includeComments`. */
  function IncludeComments(lines: seq<String>, start: nat, content: String): String
    requires start <= |lines|
  {
    var c := CommentStart(lines, start);
    if c < start then Join(lines[c..start], "\n") + "\n" + content else content
  }

  predicate Passable(lines: seq<String>, lo: int, hi: int)
    requires 0 <= lo <= hi <= |lines|
  {
    forall m :: lo <= m < hi ==> !Stops(lines[m])
  }

  lemma {:induction false} ScanUpSpec(lines: seq<String>, start: nat, i: int, top: int)
    requires start <= |lines| && -1 <= i < start && i < top <= start
    requires Passable(lines, i + 1, start)
    requires top < start ==> CommentLine(lines[top])
    requires forall k :: i < k < top ==> !CommentLine(lines[k])
    ensures var c := ScanUp(lines, i, top);
      && 0 <= c <= start && (c < start ==> CommentLine(lines[c]))
      && Passable(lines, c, start)
      && forall k :: 0 <= k < c && CommentLine(lines[k]) ==> exists m :: k < m < start && Stops(lines[m])
    decreases i + 1
  {
    hide TrimSpace, IsComment;
    if i >= 0 {
      if CommentLine(lines[i]) {
        ScanUpSpec(lines, start, i - 1, i);
      } else if TrimSpace(lines[i]) == [] {
        ScanUpSpec(lines, start, i - 1, top);
      } else {
        forall k | 0 <= k < top && CommentLine(lines[k]) ensures exists m :: k < m < start && Stops(lines[m]) {
          assert k < i && Stops(lines[i]);
        }
      }
    }
  }

  /**
   * The comments taken are the lines just above the definition: the first is
   * a comment, none between it and the definition stops the scan, and any
   * comment line further up is cut off by a line that does.
   */
  lemma CommentStartSpec(lines: seq<String>, start: nat)
    requires start <= |lines|
    ensures var c := CommentStart(lines, start);
      && 0 <= c <= start && (c < start ==> CommentLine(lines[c]))
      && Passable(lines, c, start)
      && forall k :: 0 <= k < c && CommentLine(lines[k]) ==> exists m :: k < m < start && Stops(lines[m])
  {
    hide TrimSpace, IsComment;
    ScanUpSpec(lines, start, start - 1, start);
  }

  /** Without comment lines above the definition its text is unchanged; with them it is only prefixed. */
  lemma IncludeCommentsKeeps(lines: seq<String>, start: nat, content: String)
    requires start <= |lines|
    ensures HasSuffix(IncludeComments(lines, start, content), content)
    ensures (forall k :: 0 <= k < start ==> !CommentLine(lines[k])) ==> IncludeComments(lines, start, content) == content
  {
    hide TrimSpace, IsComment;
    CommentStartSpec(lines, start);
    var r := IncludeComments(lines, start, content);
    assert r[|r| - |content|..] == content;
  }

  /** The backward loop of `includeComments`. */
  method CommentsAbove(lines: seq<String>, start: nat, content: String) returns (r: String)
    requires start <= |lines|
    ensures r == IncludeComments(lines, start, content)
  {
    var commentStart := start;
    var i := start - 1;
    while i >= 0
      invariant -1 <= i < commentStart <= start
      invariant ScanUp(lines, i, commentStart) == CommentStart(lines, start)
      decreases i + 1
    {
      var trimmed := TrimSpace(lines[i]);
      if HasPrefix(trimmed, "//") || HasPrefix(trimmed, "/*") || HasSuffix(trimmed, "*/") {
        commentStart := i;
      } else if trimmed == [] {
      } else {
        break;
      }
      i := i - 1;
    }
    if commentStart < start {
      r := Join(lines[commentStart..start], "\n") + "\n" + content;
    } else {
      r := content;
    }
  }

  // ---------------------------------------------------------------------
  // extractDefinitions

  /** The largest preamble line, or 0. */
  function PreambleEnd(elements: seq<Element>): (r: int)
    ensures r >= 0
    ensures forall k :: 0 <= k < |elements| && IsPreamble(elements[k]) ==> elements[k].line <= r
    ensures r == 0 || exists k :: 0 <= k < |elements| && IsPreamble(elements[k]) && elements[k].line == r
  {
    if |elements| == 0 then 0
    else
      var e := elements[|elements| - 1];
      var r := PreambleEnd(elements[..|elements| - 1]);
      if IsPreamble(e) && e.line > r then e.line else r
  }

  /** The preamble definition, when the preamble is not blank. */
  function Preamble(lines: seq<String>, pe: int): seq<Definition>
    requires 0 <= pe <= |lines|
  {
    var text := Join(lines[..pe], "\n");
    if pe > 0 && TrimSpace(text) != [] then [Definition(Schema("", "", "", "preamble"), text + "\n")] else []
  }

  /** The definition of a message, enum or service starting on line `e.line`. */
  function DefinitionOf(lines: seq<String>, e: Element): Definition
    requires IsDefinition(e) && 1 <= e.line <= |lines|
  {
    var start := e.line - 1;
    var end := DefinitionEnd(lines, start);
    var text := IncludeComments(lines, start, Join(lines[start..end], "\n")) + "\n";
    match e
    case Message(name, _) => Definition(Schema(name, "", "", "message"), text)
    case Enum(name, _) => Definition(Schema(name, "", "", "enum"), text)
    case Service(name, _) => Definition(Schema("", name, "", "service"), text)
  }

  /** Every element lies on a line of the text, as the slices in `extractDefinitions` demand. */
  predicate OnLines(lines: seq<String>, elements: seq<Element>)
  {
    forall k :: 0 <= k < |elements| ==> 1 <= elements[k].line <= |lines|
  }

  function DefinitionsOf(lines: seq<String>, elements: seq<Element>): seq<Definition>
    requires OnLines(lines, elements)
  {
    if |elements| == 0 then []
    else
      var e := elements[|elements| - 1];
      DefinitionsOf(lines, elements[..|elements| - 1]) + if IsDefinition(e) then [DefinitionOf(lines, e)] else []
  }

  /** `extractDefinitions`: the preamble, then the definitions in order, or the whole text as one unknown definition. */
  function Definitions(content: String, elements: seq<Element>): seq<Definition>
    requires OnLines(Split(content, "\n"), elements)
  {
    var lines := Split(content, "\n");
    var defs := Preamble(lines, PreambleEnd(elements)) + DefinitionsOf(lines, elements);
    if |defs| == 0 then [Definition(UnknownSchema, content)] else defs
  }

  lemma {:induction false} NoDefinitionsOf(lines: seq<String>, elements: seq<Element>)
    requires OnLines(lines, elements)
    requires forall k :: 0 <= k < |elements| ==> !IsDefinition(elements[k])
    ensures DefinitionsOf(lines, elements) == []
    decreases |elements|
  {
    if |elements| > 0 {
      NoDefinitionsOf(lines, elements[..|elements| - 1]);
    }
  }

  /** A file with no message, enum or service and no preamble is one unknown definition holding the whole text. */
  lemma NoDefinitionsUnknown(content: String, elements: seq<Element>)
    requires OnLines(Split(content, "\n"), elements)
    requires forall k :: 0 <= k < |elements| ==> !IsDefinition(elements[k]) && !IsPreamble(elements[k])
    ensures Definitions(content, elements) == [Definition(UnknownSchema, content)]
  {
    NoDefinitionsOf(Split(content, "\n"), elements);
  }

  /** A message, enum or service definition whose text ends with a newline. */
  predicate Shaped(d: Definition)
  {
    d.schema.typeKind in ["message", "enum", "service"] && HasSuffix(d.content, "\n")
  }

  lemma DefinitionOfShaped(lines: seq<String>, e: Element)
    requires IsDefinition(e) && 1 <= e.line <= |lines|
    ensures Shaped(DefinitionOf(lines, e))
  {
    var d := DefinitionOf(lines, e);
    assert d.content[|d.content| - 1..] == "\n";
  }

  lemma ShapedSnoc(ds: seq<Definition>, more: seq<Definition>)
    requires forall k :: 0 <= k < |ds| ==> Shaped(ds[k])
    requires |more| <= 1 && forall k :: 0 <= k < |more| ==> Shaped(more[k])
    ensures forall k :: 0 <= k < |ds + more| ==> Shaped((ds + more)[k])
  {
  }

  lemma {:induction false} DefinitionsOfShaped(lines: seq<String>, elements: seq<Element>)
    requires OnLines(lines, elements)
    ensures forall k :: 0 <= k < |DefinitionsOf(lines, elements)| ==> Shaped(DefinitionsOf(lines, elements)[k])
    decreases |elements|
  {
    if |elements| > 0 {
      var init := elements[..|elements| - 1];
      var e := elements[|elements| - 1];
      DefinitionsOfShaped(lines, init);
      var more := if IsDefinition(e) then [DefinitionOf(lines, e)] else [];
      if IsDefinition(e) {
        DefinitionOfShaped(lines, e);
      }
      hide DefinitionOf, Shaped;
      assert DefinitionsOf(lines, elements) == DefinitionsOf(lines, init) + more;
      ShapedSnoc(DefinitionsOf(lines, init), more);
    }
  }

  /**
   * Every definition from the parse is the preamble, a message, an enum or a
   * service, and its text ends with a newline; a definition's own lines
   * close with the line that balances its braces.
   */
  lemma DefinitionsShape(content: String, elements: seq<Element>)
    requires OnLines(Split(content, "\n"), elements)
    requires exists k :: 0 <= k < |elements| && IsDefinition(elements[k])
    ensures forall k :: 0 <= k < |Definitions(content, elements)| ==>
      Definitions(content, elements)[k].schema.typeKind in ["preamble", "message", "enum", "service"]
      && HasSuffix(Definitions(content, elements)[k].content, "\n")
  {
    hide Definitions, Preamble, DefinitionsOf, TrimSpace, DefinitionOf;
    var lines := Split(content, "\n");
    var k :| 0 <= k < |elements| && IsDefinition(elements[k]);
    DefinitionsOfNonEmpty(lines, elements, k);
    var pre := Preamble(lines, PreambleEnd(elements));
    var rest := DefinitionsOf(lines, elements);
    var defs: seq<Definition> := pre + rest;
    DefinitionsJoin(content, elements);
    DefinitionsOfShaped(lines, elements);
    PreambleShape(lines, PreambleEnd(elements));
    forall j | 0 <= j < |defs|
      ensures defs[j].schema.typeKind in ["preamble", "message", "enum", "service"]
      ensures HasSuffix(defs[j].content, "\n")
    {
      if j >= |pre| {
        assert defs[j] == rest[j - |pre|];
        assert Shaped(rest[j - |pre|]);
      }
    }
  }

  lemma DefinitionsJoin(content: String, elements: seq<Element>)
    requires OnLines(Split(content, "\n"), elements)
    requires |DefinitionsOf(Split(content, "\n"), elements)| > 0
    ensures Definitions(content, elements) == Preamble(Split(content, "\n"), PreambleEnd(elements)) + DefinitionsOf(Split(content, "\n"), elements)
  {
  }

  /** The preamble, when there is one, is one definition of kind "preamble" ending in a newline. */
  lemma PreambleShape(lines: seq<String>, pe: int)
    requires 0 <= pe <= |lines|
    ensures forall j :: 0 <= j < |Preamble(lines, pe)| ==>
      Preamble(lines, pe)[j].schema.typeKind == "preamble" && HasSuffix(Preamble(lines, pe)[j].content, "\n")
  {
    var pre := Preamble(lines, pe);
    if |pre| > 0 {
      var text := pre[0].content;
      assert text[|text| - 1..] == "\n";
    }
  }

  lemma {:induction false} DefinitionsOfNonEmpty(lines: seq<String>, elements: seq<Element>, k: int)
    requires OnLines(lines, elements) && 0 <= k < |elements| && IsDefinition(elements[k])
    ensures |DefinitionsOf(lines, elements)| > 0
    decreases |elements|
  {
    if k < |elements| - 1 {
      DefinitionsOfNonEmpty(lines, elements[..|elements| - 1], k);
    }
  }

  /** The first loop of `extractDefinitions`. */
  method FindPreambleEnd(elements: seq<Element>) returns (preambleEnd: int)
    ensures preambleEnd == PreambleEnd(elements)
  {
    preambleEnd := 0;
    for k := 0 to |elements|
      invariant preambleEnd == PreambleEnd(elements[..k])
    {
      assert elements[..k + 1][..k] == elements[..k];
      var e := elements[k];
      if IsPreamble(e) && e.line > preambleEnd {
        preambleEnd := e.line;
      }
    }
    assert elements[..|elements|] == elements;
  }

  /** One message, enum or service of the second loop. */
  method ExtractDefinition(lines: seq<String>, e: Element) returns (d: Definition)
    requires IsDefinition(e) && 1 <= e.line <= |lines|
    ensures d == DefinitionOf(lines, e)
  {
    var start := e.line - 1;
    var end := FindDefinitionEnd(lines, start);
    var text := CommentsAbove(lines, start, Join(lines[start..end], "\n"));
    d := match e
      case Message(name, _) => Definition(Schema(name, "", "", "message"), text + "\n")
      case Enum(name, _) => Definition(Schema(name, "", "", "enum"), text + "\n")
      case Service(name, _) => Definition(Schema("", name, "", "service"), text + "\n");
  }

  /** The second loop of `extractDefinitions`. */
  method ExtractEach(lines: seq<String>, elements: seq<Element>, pre: seq<Definition>) returns (defs: seq<Definition>)
    requires OnLines(lines, elements)
    ensures defs == pre + DefinitionsOf(lines, elements)
  {
    hide DefinitionOf;
    defs := pre;
    for k := 0 to |elements|
      invariant defs == pre + DefinitionsOf(lines, elements[..k])
    {
      assert elements[..k + 1][..k] == elements[..k];
      var e := elements[k];
      if IsDefinition(e) {
        var d := ExtractDefinition(lines, e);
        defs := defs + [d];
      }
    }
    assert elements[..|elements|] == elements;
  }

  /** `extractDefinitions`. */
  method ExtractDefinitions(content: String, elements: seq<Element>) returns (defs: seq<Definition>)
    requires OnLines(Split(content, "\n"), elements)
    ensures defs == Definitions(content, elements)
  {
    hide DefinitionsOf;
    var lines := Split(content, "\n");
    var preambleEnd := FindPreambleEnd(elements);
    var pre := [];
    if preambleEnd > 0 {
      var text := Join(lines[..preambleEnd], "\n");
      if TrimSpace(text) != [] {
        pre := [Definition(Schema("", "", "", "preamble"), text + "\n")];
      }
    }
    defs := ExtractEach(lines, elements, pre);
    if |defs| == 0 {
      defs := [Definition(UnknownSchema, content)];
    }
  }

  // ---------------------------------------------------------------------
  // Chunk

  function Units(defs: seq<Definition>): (r: seq<Unit<Schema>>)
    ensures |r| == |defs| && LineUnits(r)
    ensures forall k :: 0 <= k < |r| ==> r[k].content == defs[k].content && r[k].meta == defs[k].schema
  {
    seq(|defs|, k requires 0 <= k < |defs| => LineUnit(defs[k].content, defs[k].schema))
  }

  /** `Chunk`; `parsed` is `None` when the parser reports an error. */
  function ChunkProto(content: String, maxSize: int, parsed: Option<seq<Element>>): ChunkResult<Schema>
    requires parsed.Some? ==> OnLines(Split(content, "\n"), parsed.value)
  {
    if |content| == 0 then EmptyResult(Name)
    else
      var chunks :=
        match parsed
        case None => LineChunks(content, Limit(maxSize), UnknownSchema)
        case Some(els) => Assemble(Units(Definitions(content, els)), Limit(maxSize), 0, 0);
      ChunkResult(chunks, |chunks|, Name, |content|)
  }

  /**
   * With a parse, the chunks are numbered from 0, each spans exactly its
   * text, which sits at its offsets in the definitions' texts laid end to
   * end, and one exceeds the limit only when it is a single line of its
   * definition.
   */
  lemma ParsedChunksSound(content: String, maxSize: int, els: seq<Element>)
    requires OnLines(Split(content, "\n"), els) && |content| > 0
    ensures var r := ChunkProto(content, maxSize, Some(els));
      var defs := Definitions(content, els);
      && r.totalChunks == |r.chunks| && r.originalSize == |content| && r.chunkerUsed == Name
      && Sequential(r.chunks) && Widths(r.chunks)
      && TextAt(r.chunks, Whole(Units(defs)), 0)
      && forall k :: 0 <= k < |r.chunks| ==>
           (|r.chunks[k].content| <= Limit(maxSize) || exists i :: 0 <= i < |defs| && r.chunks[k].content in Split(defs[i].content, "\n"))
  {
    var defs := Definitions(content, els);
    AssembleSound(Units(defs), Limit(maxSize));
  }

  /**
   * After a parse error the chunks, joined with `"\n"`, are the text; they
   * are numbered from 0 and sit at their own offsets in the text.
   */
  lemma FallbackChunksSound(content: String, maxSize: int)
    requires |content| > 0
    ensures var r := ChunkProto(content, maxSize, None);
      && r.totalChunks == |r.chunks| > 0 && r.originalSize == |content| && r.chunkerUsed == Name
      && Join(Pieces(r.chunks), "\n") == content
      && Sequential(r.chunks) && Widths(r.chunks)
      && TextAt(r.chunks, content, 0)
      && forall k :: 0 <= k < |r.chunks| ==>
           r.chunks[k].meta == UnknownSchema && (|r.chunks[k].content| <= Limit(maxSize) || r.chunks[k].content in Split(content, "\n"))
  {
    LineChunksSound(content, Limit(maxSize), UnknownSchema);
  }

  /** `Chunk`: the parse, the definitions and the loop over them. */
  method Chunk(content: String, maxSize: int, parsed: Option<seq<Element>>) returns (r: ChunkResult<Schema>)
    requires parsed.Some? ==> OnLines(Split(content, "\n"), parsed.value)
    ensures r == ChunkProto(content, maxSize, parsed)
  {
    if |content| == 0 {
      return EmptyResult(Name);
    }
    var m := if maxSize <= 0 then DefaultMaxChunkSize else maxSize;
    var chunks;
    if parsed.None? {
      chunks := LineChunksOf(content, m, UnknownSchema);
    } else {
      var defs := ExtractDefinitions(content, parsed.value);
      chunks := EmitUnits(Units(defs), m);
    }
    return ChunkResult(chunks, |chunks|, Name, |content|);
  }
}
