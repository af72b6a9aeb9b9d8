/**
 * The Jupyter notebook chunker (internal/chunkers/notebook.go). Decoding
 * the notebook's JSON is an input: each cell arrives with its type, its
 * source already joined into one string, and its outputs. The model covers
 * cell grouping, the kernel and chunk-type choices, heading extraction, the
 * text of a group, and the split of large groups and cells.
 */
module Notebook {
  import opened Text
  import opened Chunks
  import opened Wrappers
  import Packing

  const Name: String := "notebook"

  /** `CanHandle`. */
  predicate CanHandle(mimeType: String, language: String)
  {
    || mimeType == "application/x-ipynb+json"
    || (mimeType == "application/json" && HasSuffix(ToLower(language), ".ipynb"))
    || HasSuffix(ToLower(language), ".ipynb")
  }

  /** The JSON clause adds nothing: a notebook is recognised by its MIME type or its `.ipynb` name alone. */
  lemma CanHandleByName(mimeType: String, language: String)
    ensures CanHandle(mimeType, language) <==> mimeType == "application/x-ipynb+json" || HasSuffix(ToLower(language), ".ipynb")
  {
  }

  // ---------------------------------------------------------------------
  // Cells and grouping

  /** `jupyterOutput`: `text` is the decoded `text` field, `plain` the decoded `data["text/plain"]` if present. */
  datatype Output = Output(outputType: String, text: String, plain: Option<String>, ename: String, evalue: String)

  /** `jupyterCell`, with its source decoded. */
  datatype Cell = Cell(cellType: String, source: String, outputs: seq<Output>, execCount: Option<int>, index: int)

  /** The cells, each with `Index` set to its position. */
  function Indexed(cells: seq<Cell>): (r: seq<Cell>)
    ensures |r| == |cells|
    ensures forall i :: 0 <= i < |r| ==> r[i] == cells[i].(index := i)
  {
    seq(|cells|, i requires 0 <= i < |cells| => cells[i].(index := i))
  }

  /** One step of `groupCells`: the cell joins the open group when it has that group's type, else opens a new one. */
  function Push(groups: seq<seq<Cell>>, c: Cell): seq<seq<Cell>>
  {
    if |groups| > 0 && |groups[|groups| - 1]| > 0 && groups[|groups| - 1][0].cellType == c.cellType then groups[..|groups| - 1] + [groups[|groups| - 1] + [c]]
    else groups + [[c]]
  }

  /** Cells grouped into runs of one type; the last group is the one still open. */
  function Group(cells: seq<Cell>): seq<seq<Cell>>
  {
    if |cells| == 0 then [] else Push(Group(cells[..|cells| - 1]), cells[|cells| - 1])
  }

  /** `groupCells`: nil for no cells, else the runs of consecutive cells of one type. */
  function GroupCells(cells: seq<Cell>): seq<seq<Cell>>
  {
    if |cells| == 0 then [] else Group(Indexed(cells))
  }

  function Concat(groups: seq<seq<Cell>>): seq<Cell>
  {
    if |groups| == 0 then [] else Concat(groups[..|groups| - 1]) + groups[|groups| - 1]
  }

  /** Each group is non-empty and of one type, and neighbouring groups differ in type. */
  predicate Runs(groups: seq<seq<Cell>>)
  {
    && (forall g :: g in groups ==> |g| > 0 && forall c :: c in g ==> c.cellType == g[0].cellType)
    && (forall i :: 0 < i < |groups| ==> groups[i - 1][0].cellType != groups[i][0].cellType)
  }

  /** A step appends the cell to the concatenation of the groups. */
  lemma PushConcat(groups: seq<seq<Cell>>, c: Cell)
    ensures Concat(Push(groups, c)) == Concat(groups) + [c]
  {
    if |groups| > 0 && |groups[|groups| - 1]| > 0 && groups[|groups| - 1][0].cellType == c.cellType {
      var init := groups[..|groups| - 1];
      assert (init + [groups[|groups| - 1] + [c]])[..|init|] == init;
      assert Concat(groups) == Concat(init) + groups[|groups| - 1];
    } else {
      assert (groups + [[c]])[..|groups|] == groups;
    }
  }

  /** A cell of the open group's type joins it, and the groups stay runs. */
  lemma PushRunsJoin(groups: seq<seq<Cell>>, c: Cell)
    requires Runs(groups) && |groups| > 0 && groups[|groups| - 1][0].cellType == c.cellType
    ensures Runs(groups[..|groups| - 1] + [groups[|groups| - 1] + [c]])
  {
    var last := groups[|groups| - 1];
    var init := groups[..|groups| - 1];
    var r := init + [last + [c]];
    assert last in groups;
    forall g | g in r ensures |g| > 0 && forall d :: d in g ==> d.cellType == g[0].cellType {
      if g != last + [c] {
        assert g in init;
      }
    }
    forall i | 0 < i < |r| ensures r[i - 1][0].cellType != r[i][0].cellType {
      assert r[i - 1] == groups[i - 1];
      assert r[i][0] == groups[i][0];
    }
  }

  /** A cell of another type opens a new group, and the groups stay runs. */
  lemma PushRunsOpen(groups: seq<seq<Cell>>, c: Cell)
    requires Runs(groups) && (|groups| == 0 || groups[|groups| - 1][0].cellType != c.cellType)
    ensures Runs(groups + [[c]])
  {
    var r: seq<seq<Cell>> := groups + [[c]];
    forall i | 0 < i < |r| ensures r[i - 1][0].cellType != r[i][0].cellType {
      if i < |groups| {
        assert r[i - 1] == groups[i - 1] && r[i] == groups[i];
      }
    }
  }

  /** A step keeps the groups runs of one type. */
  lemma PushRuns(groups: seq<seq<Cell>>, c: Cell)
    requires Runs(groups)
    ensures Runs(Push(groups, c))
  {
    if |groups| > 0 {
      assert groups[|groups| - 1] in groups;
    }
    if |groups| > 0 && groups[|groups| - 1][0].cellType == c.cellType {
      PushRunsJoin(groups, c);
    } else {
      PushRunsOpen(groups, c);
    }
  }

  /**
   * The groups concatenate to the cells, each is non-empty and of one type,
   * and neighbouring groups differ in type.
   */
  lemma {:induction false} GroupSound(cells: seq<Cell>)
    ensures Concat(Group(cells)) == cells && Runs(Group(cells))
    decreases |cells|
  {
    if |cells| > 0 {
      var init := cells[..|cells| - 1];
      var c := cells[|cells| - 1];
      assert init + [c] == cells;
      assert Group(cells) == Push(Group(init), c);
      hide Group;
      GroupSound(init);
      PushConcat(Group(init), c);
      PushRuns(Group(init), c);
    }
  }

  /**
   * `groupCells` returns nil for no cells; otherwise its groups concatenate
   * to the cells with `Index` set to each cell's position, are non-empty and
   * of one type, and neighbouring groups differ in type.
   */
  lemma GroupCellsSound(cells: seq<Cell>)
    ensures |cells| == 0 <==> GroupCells(cells) == []
    ensures Concat(GroupCells(cells)) == Indexed(cells) && Runs(GroupCells(cells))
    ensures forall i :: 0 <= i < |cells| ==> Concat(GroupCells(cells))[i].index == i
  {
    if |cells| > 0 {
      GroupSound(Indexed(cells));
      assert Concat(Group(Indexed(cells))) != [];
    }
  }

  lemma PushOpen(groups: seq<seq<Cell>>, current: seq<Cell>, c: Cell)
    requires |current| > 0
    ensures Push(groups + [current], c)
      == if current[0].cellType == c.cellType then groups + [current + [c]] else groups + [current] + [[c]]
  {
    assert (groups + [current])[..|groups|] == groups;
  }

  /** `groupCells`. */
  method GroupCellsOf(cells: seq<Cell>) returns (groups: seq<seq<Cell>>)
    ensures groups == GroupCells(cells)
  {
    if |cells| == 0 {
      return [];
    }
    var indexed: seq<Cell> := [];
    for i := 0 to |cells|
      invariant |indexed| == i && forall k :: 0 <= k < i ==> indexed[k] == cells[k].(index := k)
    {
      indexed := indexed + [cells[i].(index := i)];
    }
    assert indexed == Indexed(cells);
    groups := [];
    var current: seq<Cell> := [];
    for i := 0 to |indexed|
      invariant i == 0 <==> |current| == 0
      invariant i == 0 ==> groups == []
      invariant i > 0 ==> groups + [current] == Group(indexed[..i])
    {
      assert indexed[..i + 1][..i] == indexed[..i];
      var cell := indexed[i];
      assert Group(indexed[..i + 1]) == Push(Group(indexed[..i]), cell);
      if |current| > 0 {
        PushOpen(groups, current, cell);
      } else {
        assert Push([], cell) == [[cell]];
      }
      if |current| == 0 {
        current := [cell];
        assert groups + [current] == [[cell]];
      } else if current[0].cellType == cell.cellType {
        current := current + [cell];
      } else {
        groups := groups + [current];
        current := [cell];
      }
    }
    assert indexed[..|indexed|] == indexed;
    groups := groups + [current];
  }

  // ---------------------------------------------------------------------
  // Kernel, chunk type, document metadata

  /** `extractKernel`: the kernelspec name, else its display name, else the language name, else "". */
  function Kernel(name: String, displayName: String, languageName: String): String
  {
    if name != [] then name
    else if displayName != [] then displayName
    else languageName
  }

  /** The first of the three names that is set wins; the kernel is empty only when none is. */
  lemma KernelPrecedence(name: String, displayName: String, languageName: String)
    ensures var k := Kernel(name, displayName, languageName);
      && (name != [] ==> k == name)
      && (name == [] && displayName != [] ==> k == displayName)
      && (name == [] && displayName == [] ==> k == languageName)
      && (k == [] <==> name == [] && displayName == [] && languageName == [])
  {
  }

  /** `getChunkType`. */
  function ChunkTypeOf(cellType: String): ChunkType
  {
    if cellType == "code" then CodeChunk
    else if cellType == "markdown" then MarkdownChunk
    else ProseChunk
  }

  /** Code cells give code chunks, markdown cells markdown chunks, and every other cell type prose. */
  lemma ChunkTypes(cellType: String)
    ensures ChunkTypeOf(cellType) == CodeChunk <==> cellType == "code"
    ensures ChunkTypeOf(cellType) == MarkdownChunk <==> cellType == "markdown"
    ensures ChunkTypeOf(cellType) == ProseChunk <==> cellType != "code" && cellType != "markdown"
    ensures ChunkTypeOf(cellType) != StructuredChunk && ChunkTypeOf(cellType) != UnknownChunk
  {
  }

  /** `DocumentMetadata` of a notebook chunk. */
  datatype DocMeta = DocMeta(heading: String, level: int)

  /** `buildDocumentMetadata`. */
  function DocumentMeta(heading: String): (r: Option<DocMeta>)
    ensures r.None? <==> heading == []
    ensures r.Some? ==> r.value.heading == heading && r.value.level == 1
  {
    if heading == [] then None else Some(DocMeta(heading, 1))
  }

  // ---------------------------------------------------------------------
  // extractHeading and the pattern `^(#{1,6})\s+(.+)$`

  /** `\s` of Go's regular expressions. */
  predicate RegexSpace(c: char)
  {
    c == ' ' || c == '\t' || c == '\n' || c == '\U{C}' || c == '\r'
  }

  /** The number of `#` at the start of a line. */
  function Hashes(line: String): (n: nat)
    ensures n <= |line| && (n == |line| || line[n] != '#')
    ensures forall i :: 0 <= i < n ==> line[i] == '#'
  {
    LeadingIn(line, c => c == '#')
  }

  /**
   * A line without a newline matches the heading pattern when it starts
   * with one to six `#`, then whitespace, then at least one more character.
   * The heading is the rest of the line after that first whitespace,
   * trimmed (the regex's greedy `\s+` only moves spaces between the two,
   * and the trim removes them either way).
   */
  function MatchHeading(line: String): (r: Option<(String, int)>)
    ensures r.Some? ==> 1 <= r.value.1 <= 6 && r.value.1 == Hashes(line)
    ensures r.Some? ==> var h := r.value.0; h == [] || (!IsSpace(h[0]) && !IsSpace(h[|h| - 1]))
  {
    var n := Hashes(line);
    if 1 <= n <= 6 && n + 1 < |line| && RegexSpace(line[n]) then Some((TrimSpace(line[n + 1..]), n)) else None
  }

  /** The first line that satisfies `p`, or -1. */
  function FirstWhere(lines: seq<String>, p: String -> bool): (k: int)
    ensures -1 <= k < |lines|
    ensures k == -1 ==> forall j :: 0 <= j < |lines| ==> !p(lines[j])
    ensures k >= 0 ==> p(lines[k]) && forall j :: 0 <= j < k ==> !p(lines[j])
  {
    if |lines| == 0 then -1
    else if p(lines[0]) then 0
    else
      var k := FirstWhere(lines[1..], p);
      assert forall j :: 1 <= j < |lines| ==> lines[j] == lines[1..][j - 1];
      if k == -1 then -1 else k + 1
  }

  /**
   * `extractHeading`: the heading of the first line that matches, with its
   * level (1 to 6, the number of its leading `#`); ("", 0) if no line does.
   */
  function ExtractHeading(content: String): (r: (String, int))
    ensures 0 <= r.1 <= 6 && (r.1 == 0 ==> r.0 == [])
    ensures (r.1 == 0) <==> forall j :: 0 <= j < |Split(content, "\n")| ==> MatchHeading(Split(content, "\n")[j]).None?
    ensures r.0 == [] || (!IsSpace(r.0[0]) && !IsSpace(r.0[|r.0| - 1]))
  {
    var lines := Split(content, "\n");
    var k := FirstWhere(lines, line => MatchHeading(line).Some?);
    if k == -1 then ([], 0) else MatchHeading(lines[k]).value
  }

  /** "## Setup" is a level-2 heading "Setup". */
  lemma MatchHeadingLevelTwo()
    ensures MatchHeading("## Setup") == Some(("Setup", 2))
  {
    hide Hashes, TrimSpace;
    var a := "## Setup";
    assert a[0] == '#' && a[1] == '#' && a[2] == ' ';
    assert Hashes(a) == 2 && RegexSpace(a[2]);
    assert a[3..] == "Setup";
    TrimmedFixed("Setup");
  }

  /** Seven `#` are no heading, and neither is a `#` not followed by whitespace. */
  lemma MatchHeadingRejects()
    ensures MatchHeading("####### Deep") == None
    ensures MatchHeading("#Title") == None
  {
    DeepNotHeading();
    var c := "#Title";
    hide TrimSpace, Hashes;
    assert c[0] == '#' && c[1] == 'T';
    assert Hashes(c) == 1;
  }

  lemma DeepNotHeading()
    ensures MatchHeading("####### Deep") == None
  {
    hide TrimSpace, Hashes;
    var b := "####### Deep";
    assert b[0] == '#' && b[1] == '#' && b[2] == '#' && b[3] == '#' && b[4] == '#' && b[5] == '#' && b[6] == '#';
    assert Hashes(b) >= 7;
  }

  // ---------------------------------------------------------------------
  // extractOutputText and buildGroupContent

  /** `extractOutputText`. */
  function OutputText(o: Output): String
  {
    if o.outputType == "stream" then o.text
    else if o.outputType == "execute_result" || o.outputType == "display_data" then
      (if o.plain.Some? then o.plain.value else [])
    else if o.outputType == "error" && o.ename != [] then o.ename + ": " + o.evalue
    else []
  }

  /**
   * Streams give their text, results and displays their `text/plain` data
   * (nothing without it), errors "name: value" when they have a name, and
   * every other output nothing.
   */
  lemma OutputTextCases(o: Output)
    ensures o.outputType == "stream" ==> OutputText(o) == o.text
    ensures o.outputType in {"execute_result", "display_data"} ==> (OutputText(o) == [] <==> o.plain.None? || o.plain.value == [])
    ensures o.outputType == "error" ==> (OutputText(o) == [] <==> o.ename == [])
    ensures o.outputType == "error" && o.ename != [] ==> HasPrefix(OutputText(o), o.ename + ": ")
    ensures o.outputType !in {"stream", "execute_result", "display_data", "error"} ==> OutputText(o) == []
  {
    if o.outputType == "error" && o.ename != [] {
      assert OutputText(o)[..|o.ename + ": "|] == o.ename + ": ";
    }
  }

  /** `s`, followed by a newline unless it already ends with one. */
  function Line(s: String): (r: String)
    ensures HasSuffix(r, "\n") && HasPrefix(r, s)
  {
    if HasSuffix(s, "\n") then s else s + "\n"
  }

  /** The outputs of a code cell in the group text. */
  function OutputsBlock(outputs: seq<Output>): String
  {
    if |outputs| == 0 then []
    else
      var t := OutputText(outputs[|outputs| - 1]);
      OutputsBlock(outputs[..|outputs| - 1]) + (if t == [] then [] else "\n# Output:\n" + Line(t))
  }

  /** A cell in the group text: code is fenced and followed by its outputs; every cell ends with a blank line. */
  function CellBlock(c: Cell): String
  {
    if c.cellType == "code" then "```\n" + Line(c.source) + "```\n" + OutputsBlock(c.outputs) + "\n"
    else Line(c.source) + "\n"
  }

  /** The text `buildGroupContent` builds. */
  function GroupText(group: seq<Cell>): String
  {
    if |group| == 0 then [] else GroupText(group[..|group| - 1]) + CellBlock(group[|group| - 1])
  }

  /** The heading of a markdown cell, "" for other cells. */
  function CellHeading(c: Cell): String
  {
    if c.cellType == "markdown" then ExtractHeading(c.source).0 else []
  }

  /** The heading `buildGroupContent` reports: the first non-empty heading of a markdown cell. */
  function GroupHeading(group: seq<Cell>): String
  {
    if |group| == 0 then []
    else if GroupHeading(group[..|group| - 1]) != [] then GroupHeading(group[..|group| - 1])
    else CellHeading(group[|group| - 1])
  }

  /** The output types of a code cell. */
  function CellOutputTypes(c: Cell): set<String>
  {
    if c.cellType == "code" then set o | o in c.outputs :: o.outputType else {}
  }

  /** The output types of the group's code cells. */
  function GroupOutputTypes(group: seq<Cell>): set<String>
  {
    if |group| == 0 then {} else GroupOutputTypes(group[..|group| - 1]) + CellOutputTypes(group[|group| - 1])
  }

  /** Some code cell of the group has an output. */
  predicate GroupHasOutput(group: seq<Cell>)
  {
    exists c :: c in group && c.cellType == "code" && |c.outputs| > 0
  }

  /** The execution count `buildGroupContent` reports: that of the last code cell that has one, else 0. */
  function GroupExecCount(group: seq<Cell>): int
  {
    if |group| == 0 then 0
    else
      var c := group[|group| - 1];
      if c.cellType == "code" && c.execCount.Some? then c.execCount.value else GroupExecCount(group[..|group| - 1])
  }

  lemma BlankConcat(a: String, b: String)
    ensures IsBlank(a + b) <==> IsBlank(a) && IsBlank(b)
  {
    if IsBlank(a + b) {
      forall i | 0 <= i < |a| ensures IsSpace(a[i]) {
        assert a[i] == (a + b)[i];
      }
      forall i | 0 <= i < |b| ensures IsSpace(b[i]) {
        assert b[i] == (a + b)[|a| + i];
      }
    }
    if IsBlank(a) && IsBlank(b) {
      forall i | 0 <= i < |a + b| ensures IsSpace((a + b)[i]) {
        if i >= |a| {
          assert (a + b)[i] == b[i - |a|];
        }
      }
    }
  }

  lemma CellBlockBlank(c: Cell)
    ensures IsBlank(CellBlock(c)) <==> c.cellType != "code" && IsBlank(c.source)
  {
    if c.cellType == "code" {
      assert CellBlock(c)[0] == '`';
    } else {
      var l := Line(c.source);
      BlankConcat(l, "\n");
      if HasSuffix(c.source, "\n") {
      } else {
        BlankConcat(c.source, "\n");
      }
    }
  }

  /** A group is skipped exactly when it has no code cell and every source is blank. */
  lemma {:induction false} GroupTextBlank(group: seq<Cell>)
    ensures TrimSpace(GroupText(group)) == [] <==> forall c :: c in group ==> c.cellType != "code" && IsBlank(c.source)
    decreases |group|
  {
    if |group| > 0 {
      var init := group[..|group| - 1];
      var c := group[|group| - 1];
      assert GroupText(group) == GroupText(init) + CellBlock(c);
      hide GroupText, CellBlock, TrimSpace;
      GroupTextBlank(init);
      BlankConcat(GroupText(init), CellBlock(c));
      CellBlockBlank(c);
      Text.InSnoc(group);
    }
  }

  /**
   * The group heading is "" exactly when no markdown cell of the group has
   * a heading; otherwise it is the heading of the first markdown cell that
   * has one.
   */
  lemma {:induction false} GroupHeadingFirst(group: seq<Cell>)
    ensures GroupHeading(group) == [] <==> forall c :: c in group ==> CellHeading(c) == []
    ensures GroupHeading(group) != [] ==>
      exists k :: 0 <= k < |group| && GroupHeading(group) == CellHeading(group[k]) && forall j :: 0 <= j < k ==> CellHeading(group[j]) == []
    decreases |group|
  {
    hide CellHeading;
    if |group| > 0 {
      var init := group[..|group| - 1];
      GroupHeadingFirst(init);
      assert group == init + [group[|group| - 1]];
      if GroupHeading(init) != [] {
        var k :| 0 <= k < |init| && GroupHeading(init) == CellHeading(init[k]) && forall j :: 0 <= j < k ==> CellHeading(init[j]) == [];
        assert group[k] == init[k];
      } else if CellHeading(group[|group| - 1]) != [] {
        assert forall j :: 0 <= j < |init| ==> init[j] in init;
      }
    }
  }

  /** A code cell with an execution count. */
  predicate Counted(c: Cell)
  {
    c.cellType == "code" && c.execCount.Some?
  }

  /**
   * The execution count is that of the last code cell that has one, and 0
   * when none has.
   */
  lemma {:induction false} GroupExecCountLast(group: seq<Cell>)
    ensures (forall c :: c in group ==> !Counted(c)) ==> GroupExecCount(group) == 0
    ensures (exists c :: c in group && Counted(c)) ==>
      exists k :: 0 <= k < |group| && Counted(group[k]) && group[k].execCount == Some(GroupExecCount(group))
                  && forall j :: k < j < |group| ==> !Counted(group[j])
  {
    if exists c :: c in group && Counted(c) {
      var c :| c in group && Counted(c);
      var k := LastCounted(group, c);
    } else {
      NoneCounted(group);
    }
  }

  lemma {:induction false} NoneCounted(group: seq<Cell>)
    requires forall c :: c in group ==> !Counted(c)
    ensures GroupExecCount(group) == 0
    decreases |group|
  {
    if |group| > 0 {
      var init := group[..|group| - 1];
      assert group[|group| - 1] in group;
      assert forall c :: c in init ==> c in group;
      NoneCounted(init);
    }
  }

  /** The last counted cell of a group that has one, and its count is the group's. */
  lemma {:induction false} LastCounted(group: seq<Cell>, d: Cell) returns (k: int)
    requires d in group && Counted(d)
    ensures 0 <= k < |group| && Counted(group[k]) && group[k].execCount == Some(GroupExecCount(group))
    ensures forall j :: k < j < |group| ==> !Counted(group[j])
    decreases |group|
  {
    var init := group[..|group| - 1];
    var c := group[|group| - 1];
    if Counted(c) {
      k := |group| - 1;
    } else {
      assert d != c;
      assert group == init + [c];
      assert d in init;
      k := LastCounted(init, d);
      assert GroupExecCount(group) == GroupExecCount(init);
      assert group[k] == init[k];
      assert forall j :: k < j < |init| ==> group[j] == init[j];
    }
  }

  /** An output type is reported exactly when some code cell of the group has an output of that type. */
  lemma {:induction false} GroupOutputTypesOf(group: seq<Cell>)
    ensures forall t :: t in GroupOutputTypes(group) <==> exists c, o :: c in group && c.cellType == "code" && o in c.outputs && o.outputType == t
    decreases |group|
  {
    if |group| > 0 {
      var init := group[..|group| - 1];
      GroupOutputTypesOf(init);
      assert group == init + [group[|group| - 1]];
    }
  }

  // ---------------------------------------------------------------------
  // Chunks: splitLargeGroup, splitCellByLines and Chunk

  /** `NotebookMetadata` with the chunk type and the document heading of its chunk. */
  datatype Meta = Meta(chunkType: ChunkType, cellType: String, cellIndex: int, execCount: int, hasOutput: bool,
                       outputTypes: set<String>, kernel: String, doc: Option<DocMeta>)

  /** The outputs appended to a code cell's own text in `splitLargeGroup`. */
  function OutputsTail(outputs: seq<Output>): String
  {
    if |outputs| == 0 then []
    else
      var t := OutputText(outputs[|outputs| - 1]);
      OutputsTail(outputs[..|outputs| - 1]) + (if t == [] then [] else "\n# Output:\n" + t)
  }

  /** A cell's own text in `splitLargeGroup`: its trimmed source, fenced and followed by its outputs for code. */
  function CellPiece(c: Cell): (r: String)
    ensures TrimSpace(c.source) != [] ==> |r| > 0
  {
    var t := TrimSpace(c.source);
    if c.cellType == "code" then "```\n" + t + "\n```" + OutputsTail(c.outputs) else t
  }

  /** The metadata of a chunk of one cell. */
  function CellMeta(c: Cell, kernel: String): Meta
  {
    var code := c.cellType == "code";
    Meta(ChunkTypeOf(c.cellType), c.cellType, c.index, if code && c.execCount.Some? then c.execCount.value else 0,
         code && |c.outputs| > 0, CellOutputTypes(c), kernel, DocumentMeta(CellHeading(c)))
  }

  /** The metadata of a chunk of a whole group. */
  function GroupMeta(group: seq<Cell>, kernel: String): Meta
    requires |group| > 0
  {
    Meta(ChunkTypeOf(group[0].cellType), group[0].cellType, group[0].index, GroupExecCount(group),
         GroupHasOutput(group), GroupOutputTypes(group), kernel, DocumentMeta(GroupHeading(group)))
  }

  /** Texts laid one after another from `offset`, all with one metadata. */
  /** The chunks of one cell of a large group, from `offset`. */
  function CellChunks(c: Cell, maxSize: int, kernel: String, offset: int): seq<Chunk<Meta>>
  {
    var t := CellPiece(c);
    if TrimSpace(c.source) == [] then []
    else if |t| > maxSize then Lay(Packing.LinePieces(t, maxSize), offset, CellMeta(c, kernel))
    else [Chunks.Chunk(0, t, offset, offset + |t|, CellMeta(c, kernel))]
  }

  /** How far a cell moves the offset in `splitLargeGroup`. */
  function CellAdvance(c: Cell): nat
  {
    if TrimSpace(c.source) == [] then 0 else |CellPiece(c)|
  }

  /** `splitLargeGroup`. */
  function SplitGroup(cells: seq<Cell>, maxSize: int, kernel: String, offset: int): seq<Chunk<Meta>>
  {
    if |cells| == 0 then []
    else CellChunks(cells[0], maxSize, kernel, offset) + SplitGroup(cells[1..], maxSize, kernel, offset + CellAdvance(cells[0]))
  }

  /** The chunks of one group from `offset`: none when blank, the whole trimmed text when it fits, else one cell at a time. */
  function GroupChunks(group: seq<Cell>, maxSize: int, kernel: String, offset: int): seq<Chunk<Meta>>
  {
    var t := TrimSpace(GroupText(group));
    if t == [] then []
    else if |t| > maxSize then SplitGroup(group, maxSize, kernel, offset)
    else [Chunks.Chunk(0, t, offset, offset + |t|, GroupMeta(group, kernel))]
  }

  /** The chunks of the groups, each group starting where the previous group's trimmed text would end. */
  function Chunked(groups: seq<seq<Cell>>, maxSize: int, kernel: String, offset: int): seq<Chunk<Meta>>
  {
    if |groups| == 0 then []
    else
      GroupChunks(groups[0], maxSize, kernel, offset)
      + Chunked(groups[1..], maxSize, kernel, offset + |TrimSpace(GroupText(groups[0]))|)
  }

  /** The decoded notebook: its cells and the three names the kernel is taken from. */
  datatype NotebookJson = NotebookJson(cells: seq<Cell>, kernelName: String, displayName: String, languageName: String)

  /** `Chunk`. `size` is the length of the file; `parsed` is `None` when it is not valid notebook JSON. */
  function ChunkNotebook(size: nat, maxSize: int, parsed: Option<NotebookJson>): Result<ChunkResult<Meta>>
  {
    if size == 0 then Ok(EmptyResult(Name))
    else if parsed.None? then Err("invalid notebook JSON")
    else
      var nb := parsed.value;
      var kernel := Kernel(nb.kernelName, nb.displayName, nb.languageName);
      var chunks := Numbered(Chunked(GroupCells(nb.cells), Limit(maxSize), kernel, 0));
      Ok(ChunkResult(chunks, |chunks|, Name, size))
  }

  /**
   * A chunk as `Chunk` promises it: non-empty, within `maxSize` unless it
   * is a single over-long line, with offsets spanning its text from no
   * earlier than `offset`, a chunk type matching its cell type, the
   * notebook's kernel, and a heading only at level 1.
   */
  predicate Good(c: Chunk<Meta>, maxSize: int, kernel: String, offset: int)
  {
    && |c.content| > 0 && Packing.Within(c.content, maxSize)
    && c.end - c.start == |c.content| && c.start >= offset
    && c.meta.chunkType == ChunkTypeOf(c.meta.cellType) && c.meta.kernel == kernel
    && (c.meta.doc.Some? ==> c.meta.doc.value.level == 1)
  }

  lemma CellChunksGood(c: Cell, maxSize: int, kernel: String, offset: int)
    requires maxSize > 0
    ensures AllGood(CellChunks(c, maxSize, kernel, offset), maxSize, kernel, offset)
  {
    hide TrimSpace, CellPiece, Packing.LinePieces, Lay;
    var t := CellPiece(c);
    if TrimSpace(c.source) != [] && |t| > maxSize {
      Packing.LinePiecesSound(t, maxSize);
      LaySound(Packing.LinePieces(t, maxSize), offset, CellMeta(c, kernel));
    }
  }

  predicate AllGood(chunks: seq<Chunk<Meta>>, maxSize: int, kernel: String, offset: int)
  {
    forall ch :: ch in chunks ==> Good(ch, maxSize, kernel, offset)
  }

  lemma AllGoodJoin(a: seq<Chunk<Meta>>, b: seq<Chunk<Meta>>, maxSize: int, kernel: String, offset: int, next: int)
    requires AllGood(a, maxSize, kernel, offset) && AllGood(b, maxSize, kernel, next) && next >= offset
    ensures AllGood(a + b, maxSize, kernel, offset)
  {
  }

  lemma {:induction false} SplitGroupGood(cells: seq<Cell>, maxSize: int, kernel: String, offset: int)
    requires maxSize > 0
    ensures AllGood(SplitGroup(cells, maxSize, kernel, offset), maxSize, kernel, offset)
    decreases |cells|
  {
    hide CellChunks, CellAdvance, Good;
    if |cells| > 0 {
      var next := offset + CellAdvance(cells[0]);
      CellChunksGood(cells[0], maxSize, kernel, offset);
      SplitGroupGood(cells[1..], maxSize, kernel, next);
      AllGoodJoin(CellChunks(cells[0], maxSize, kernel, offset), SplitGroup(cells[1..], maxSize, kernel, next), maxSize, kernel, offset, next);
    }
  }

  lemma GroupChunksGood(group: seq<Cell>, maxSize: int, kernel: String, offset: int)
    requires maxSize > 0
    ensures AllGood(GroupChunks(group, maxSize, kernel, offset), maxSize, kernel, offset)
  {
    hide SplitGroup, TrimSpace, GroupExecCount, GroupHasOutput, GroupOutputTypes, GroupHeading;
    var t := TrimSpace(GroupText(group));
    if t != [] && |t| > maxSize {
      SplitGroupGood(group, maxSize, kernel, offset);
    }
  }

  lemma {:induction false} ChunkedGood(groups: seq<seq<Cell>>, maxSize: int, kernel: String, offset: int)
    requires maxSize > 0
    ensures AllGood(Chunked(groups, maxSize, kernel, offset), maxSize, kernel, offset)
    decreases |groups|
  {
    hide GroupChunks, GroupText, TrimSpace, Good;
    if |groups| > 0 {
      var next := offset + |TrimSpace(GroupText(groups[0]))|;
      GroupChunksGood(groups[0], maxSize, kernel, offset);
      ChunkedGood(groups[1..], maxSize, kernel, next);
      AllGoodJoin(GroupChunks(groups[0], maxSize, kernel, offset), Chunked(groups[1..], maxSize, kernel, next), maxSize, kernel, offset, next);
    }
  }

  /**
   * Empty input gives no chunks and undecodable JSON an error; otherwise
   * the chunks are numbered 0, 1, ... and every one is non-empty, within
   * the limit unless it is a single over-long line, has offsets spanning
   * its text, a chunk type matching its cell type and the notebook's
   * kernel, and a heading only at level 1.
   */
  lemma ChunkNotebookSound(size: nat, maxSize: int, parsed: Option<NotebookJson>)
    ensures size == 0 ==> ChunkNotebook(size, maxSize, parsed) == Ok(EmptyResult(Name))
    ensures size > 0 && parsed.None? ==> ChunkNotebook(size, maxSize, parsed).Err?
    ensures size > 0 && parsed.Some? ==>
      var nb := parsed.value;
      var kernel := Kernel(nb.kernelName, nb.displayName, nb.languageName);
      var r := ChunkNotebook(size, maxSize, parsed);
      && r.Ok? && r.value.totalChunks == |r.value.chunks| && r.value.originalSize == size && r.value.chunkerUsed == Name
      && Sequential(r.value.chunks)
      && forall k :: 0 <= k < |r.value.chunks| ==> Good(r.value.chunks[k], Limit(maxSize), kernel, 0)
  {
    hide Chunked, GroupCells, Kernel, Packing.Within;
    if size > 0 && parsed.Some? {
      var nb := parsed.value;
      var kernel := Kernel(nb.kernelName, nb.displayName, nb.languageName);
      var groups := GroupCells(nb.cells);
      ChunkedGood(groups, Limit(maxSize), kernel, 0);
      var raw := Chunked(groups, Limit(maxSize), kernel, 0);
      assert forall k :: 0 <= k < |raw| ==> raw[k] in raw && Good(raw[k], Limit(maxSize), kernel, 0);
    }
  }

  // ---------------------------------------------------------------------
  // The loops

  lemma TypesSnoc(outputs: seq<Output>, j: int)
    requires 0 <= j < |outputs|
    ensures (set o | o in outputs[..j + 1] :: o.outputType) == (set o | o in outputs[..j] :: o.outputType) + {outputs[j].outputType}
  {
    assert outputs[..j + 1] == outputs[..j] + [outputs[j]];
  }

  lemma OutputsBlockStep(outputs: seq<Output>, j: int)
    requires 0 <= j < |outputs|
    ensures var t := OutputText(outputs[j]);
      OutputsBlock(outputs[..j + 1]) == OutputsBlock(outputs[..j]) + (if t == [] then [] else "\n# Output:\n" + Line(t))
  {
    assert outputs[..j + 1][..j] == outputs[..j];
  }

  /** The outputs of a code cell as `buildGroupContent` writes them, with their types. */
  method WriteOutputs(outputs: seq<Output>) returns (text: String, types: set<String>)
    ensures text == OutputsBlock(outputs) && types == set o | o in outputs :: o.outputType
  {
    hide OutputText, HasSuffix;
    text, types := [], {};
    for j := 0 to |outputs|
      invariant text == OutputsBlock(outputs[..j])
      invariant types == set o | o in outputs[..j] :: o.outputType
    {
      hide OutputsBlock;
      TypesSnoc(outputs, j);
      var output := outputs[j];
      types := types + {output.outputType};
      var outputText := OutputText(output);
      OutputsBlockStep(outputs, j);
      if outputText != [] {
        var block := "\n# Output:\n" + outputText;
        if !HasSuffix(outputText, "\n") {
          block := block + "\n";
        }
        assert block == "\n# Output:\n" + Line(outputText);
        text := text + block;
      }
    }
    assert outputs[..|outputs|] == outputs;
  }

  /** One cell of `buildGroupContent`: its text in the group and the types of its outputs. */
  method WriteCell(c: Cell) returns (block: String, types: set<String>)
    ensures block == CellBlock(c) && types == CellOutputTypes(c)
  {
    hide OutputsBlock;
    var source := c.source;
    block := [];
    if c.cellType == "code" {
      block := "```\n";
    }
    ghost var prefix := block;
    block := block + source;
    if !HasSuffix(source, "\n") {
      block := block + "\n";
    }
    assert block == prefix + Line(source);
    types := {};
    if c.cellType == "code" {
      block := block + "```\n";
      var outputs;
      outputs, types := WriteOutputs(c.outputs);
      block := block + outputs;
    }
    block := block + "\n";
  }

  lemma HasOutputSnoc(group: seq<Cell>, i: int)
    requires 0 <= i < |group|
    ensures GroupHasOutput(group[..i + 1]) <==> GroupHasOutput(group[..i]) || (group[i].cellType == "code" && |group[i].outputs| > 0)
  {
    assert group[..i + 1] == group[..i] + [group[i]];
  }

  lemma GroupStart(group: seq<Cell>)
    ensures var g := group[..0];
      && GroupText(g) == [] && GroupHeading(g) == [] && GroupOutputTypes(g) == {}
      && !GroupHasOutput(g) && GroupExecCount(g) == 0
  {
    assert group[..0] == [];
  }

  /** What one more cell does to each of the group's reports. */
  lemma GroupStep(group: seq<Cell>, i: int)
    requires 0 <= i < |group|
    ensures var g, g1, c := group[..i], group[..i + 1], group[i];
      && GroupText(g1) == GroupText(g) + CellBlock(c)
      && GroupHeading(g1) == (if GroupHeading(g) != [] then GroupHeading(g) else CellHeading(c))
      && GroupOutputTypes(g1) == GroupOutputTypes(g) + CellOutputTypes(c)
      && (GroupHasOutput(g1) <==> GroupHasOutput(g) || (c.cellType == "code" && |c.outputs| > 0))
      && GroupExecCount(g1) == (if c.cellType == "code" && c.execCount.Some? then c.execCount.value else GroupExecCount(g))
  {
    assert group[..i + 1][..i] == group[..i];
    HasOutputSnoc(group, i);
  }

  /** `buildGroupContent`. */
  method BuildGroupContent(group: seq<Cell>) returns (text: String, heading: String, outputTypes: set<String>, hasOutput: bool, execCount: int)
    ensures text == GroupText(group) && heading == GroupHeading(group) && outputTypes == GroupOutputTypes(group)
    ensures hasOutput == GroupHasOutput(group) && execCount == GroupExecCount(group)
  {
    GroupStart(group);
    hide GroupText, GroupHeading, GroupOutputTypes, GroupHasOutput, GroupExecCount, CellBlock, CellOutputTypes, ExtractHeading;
    text, heading, outputTypes, hasOutput, execCount := [], [], {}, false, 0;
    for i := 0 to |group|
      invariant text == GroupText(group[..i]) && heading == GroupHeading(group[..i]) && outputTypes == GroupOutputTypes(group[..i])
      invariant hasOutput == GroupHasOutput(group[..i]) && execCount == GroupExecCount(group[..i])
    {
      GroupStep(group, i);
      var cell := group[i];
      if cell.cellType == "markdown" {
        var h := ExtractHeading(cell.source).0;
        if h != [] && heading == [] {
          heading := h;
        }
      }
      var block, types := WriteCell(cell);
      text := text + block;
      outputTypes := outputTypes + types;
      if cell.cellType == "code" {
        if |cell.outputs| > 0 {
          hasOutput := true;
        }
        if cell.execCount.Some? {
          execCount := cell.execCount.value;
        }
      }
    }
    assert group[..|group|] == group;
  }

  /** The outputs appended to a code cell's own text in `splitLargeGroup`. */
  method WriteTail(outputs: seq<Output>) returns (text: String)
    ensures text == OutputsTail(outputs)
  {
    text := [];
    for j := 0 to |outputs|
      invariant text == OutputsTail(outputs[..j])
    {
      assert outputs[..j + 1][..j] == outputs[..j];
      var outputText := OutputText(outputs[j]);
      if outputText != [] {
        text := text + "\n# Output:\n" + outputText;
      }
    }
    assert outputs[..|outputs|] == outputs;
  }

  /** A cell's own text in `splitLargeGroup`. */
  method CellText(c: Cell) returns (text: String)
    ensures text == CellPiece(c)
  {
    text := TrimSpace(c.source);
    if c.cellType == "code" {
      var tail := WriteTail(c.outputs);
      text := "```\n" + text + "\n```" + tail;
    }
  }

  /** `splitCellByLines`. */
  method SplitCellByLines(c: Cell, text: String, maxSize: int, kernel: String, offset: int) returns (chunks: seq<Chunk<Meta>>)
    ensures chunks == Lay(Packing.LinePieces(text, maxSize), offset, CellMeta(c, kernel))
  {
    var pieces := Packing.SplitLines(text, maxSize);
    chunks := LayOut(pieces, offset, CellMeta(c, kernel));
  }

  lemma CellChunksOf(c: Cell, maxSize: int, kernel: String, offset: int)
    ensures TrimSpace(c.source) == [] ==> CellChunks(c, maxSize, kernel, offset) == [] && CellAdvance(c) == 0
    ensures TrimSpace(c.source) != [] ==> CellAdvance(c) == |CellPiece(c)|
    ensures TrimSpace(c.source) != [] && |CellPiece(c)| > maxSize ==>
      CellChunks(c, maxSize, kernel, offset) == Lay(Packing.LinePieces(CellPiece(c), maxSize), offset, CellMeta(c, kernel))
    ensures TrimSpace(c.source) != [] && |CellPiece(c)| <= maxSize ==>
      CellChunks(c, maxSize, kernel, offset) == [Chunks.Chunk(0, CellPiece(c), offset, offset + |CellPiece(c)|, CellMeta(c, kernel))]
  {
    hide Packing.LinePieces, Lay, CellMeta, CellPiece, TrimSpace;
  }

  /** The chunks of one cell in `splitLargeGroup`. */
  method ChunkCell(c: Cell, maxSize: int, kernel: String, offset: int) returns (chunks: seq<Chunk<Meta>>, advance: int)
    ensures chunks == CellChunks(c, maxSize, kernel, offset) && advance == CellAdvance(c)
  {
    CellChunksOf(c, maxSize, kernel, offset);
    hide Packing.LinePieces, Lay, CellMeta, CellPiece, CellChunks, CellAdvance, TrimSpace;
    if TrimSpace(c.source) == [] {
      return [], 0;
    }
    var text := CellText(c);
    if |text| > maxSize {
      chunks := SplitCellByLines(c, text, maxSize, kernel, offset);
    } else {
      chunks := [Chunks.Chunk(0, text, offset, offset + |text|, CellMeta(c, kernel))];
    }
    advance := |text|;
  }

  /** `splitLargeGroup`. */
  method SplitLargeGroup(group: seq<Cell>, maxSize: int, kernel: String, baseOffset: int) returns (chunks: seq<Chunk<Meta>>)
    ensures chunks == SplitGroup(group, maxSize, kernel, baseOffset)
  {
    hide CellChunks, CellAdvance;
    chunks := [];
    var offset := baseOffset;
    for i := 0 to |group|
      invariant chunks + SplitGroup(group[i..], maxSize, kernel, offset) == SplitGroup(group, maxSize, kernel, baseOffset)
    {
      assert group[i..][1..] == group[i + 1..];
      var sub, advance := ChunkCell(group[i], maxSize, kernel, offset);
      chunks := chunks + sub;
      offset := offset + advance;
    }
  }

  lemma GroupTextEmpty(group: seq<Cell>)
    ensures |group| == 0 ==> TrimSpace(GroupText(group)) == []
  {
  }

  /** The chunks of one group of `Chunk`, and how far it moves the offset. */
  method ChunkGroup(group: seq<Cell>, maxSize: int, kernel: String, offset: int) returns (sub: seq<Chunk<Meta>>, advance: int)
    ensures sub == GroupChunks(group, maxSize, kernel, offset) && advance == |TrimSpace(GroupText(group))|
  {
    GroupTextEmpty(group);
    hide GroupText, SplitGroup, GroupHeading, GroupOutputTypes, GroupExecCount, GroupHasOutput, TrimSpace, DocumentMeta, ChunkTypeOf;
    var text, heading, outputTypes, hasOutput, execCount := BuildGroupContent(group);
    text := TrimSpace(text);
    if text == [] {
      sub := [];
    } else if |text| > maxSize {
      sub := SplitLargeGroup(group, maxSize, kernel, offset);
    } else {
      var meta := Meta(ChunkTypeOf(group[0].cellType), group[0].cellType, group[0].index, execCount, hasOutput, outputTypes, kernel, DocumentMeta(heading));
      sub := [Chunks.Chunk(0, text, offset, offset + |text|, meta)];
    }
    advance := |text|;
  }

  lemma ChunkedEmpty(groups: seq<seq<Cell>>, maxSize: int, kernel: String)
    ensures forall offset :: Chunked(groups[|groups|..], maxSize, kernel, offset) == []
  {
  }

  lemma ChunkedCons(groups: seq<seq<Cell>>, i: int, maxSize: int, kernel: String, offset: int)
    requires 0 <= i < |groups|
    ensures Chunked(groups[i..], maxSize, kernel, offset)
      == GroupChunks(groups[i], maxSize, kernel, offset) + Chunked(groups[i + 1..], maxSize, kernel, offset + |TrimSpace(GroupText(groups[i]))|)
  {
    hide GroupChunks, GroupText, TrimSpace;
    assert groups[i..][1..] == groups[i + 1..];
  }

  /** `Chunk`. */
  method Chunk(size: nat, maxSize: int, parsed: Option<NotebookJson>) returns (r: Result<ChunkResult<Meta>>)
    ensures r == ChunkNotebook(size, maxSize, parsed)
  {
    hide GroupChunks, GroupText, TrimSpace, GroupCells, Numbered, Kernel, Chunked;
    if size == 0 {
      return Ok(EmptyResult(Name));
    }
    var m := if maxSize <= 0 then DefaultMaxChunkSize else maxSize;
    if parsed.None? {
      return Err("invalid notebook JSON");
    }
    var nb := parsed.value;
    var kernel := Kernel(nb.kernelName, nb.displayName, nb.languageName);
    var groups := GroupCellsOf(nb.cells);
    ChunkedEmpty(groups, m, kernel);
    var chunks: seq<Chunk<Meta>> := [];
    ghost var raw: seq<Chunk<Meta>> := [];
    var offset := 0;
    for i := 0 to |groups|
      invariant chunks == Numbered(raw)
      invariant raw + Chunked(groups[i..], m, kernel, offset) == Chunked(groups, m, kernel, 0)
    {
      ChunkedCons(groups, i, m, kernel, offset);
      var sub, advance := ChunkGroup(groups[i], m, kernel, offset);
      chunks := AppendNumbered(chunks, raw, sub);
      raw := raw + sub;
      offset := offset + advance;
    }
    assert raw == Chunked(groups, m, kernel, 0);
    assert chunks == Numbered(Chunked(GroupCells(nb.cells), Limit(maxSize), kernel, 0));
    return Ok(ChunkResult(chunks, |chunks|, Name, size));
  }
}
