/**
 * The LaTeX chunker (internal/chunkers/latex.go). The text is cut into
 * sections at sectioning commands outside protected environments, keeping
 * the stack of enclosing headings; a section larger than the limit is cut
 * into paragraphs at blank lines outside math environments, and the trimmed
 * paragraphs are packed with blank lines between them.
 *
 * The three regular expressions are inputs: for each line, the environment
 * names its `\begin{..}` and `\end{..}` commands open and close, and the
 * sectioning command it holds, if any.
 */
module Latex {
  import opened Text
  import opened Chunks
  import opened Wrappers
  import opened Packing
  import opened Sections

  const Name: String := "latex"

  /** `DocumentMetadata`: heading, heading level and section path. */
  datatype Doc = Doc(heading: String, level: int, path: String)

  /** `latexSection`. */
  datatype Section = Section(heading: String, level: int, content: String, path: String)

  /** The environment names a line opens and closes, in order. */
  datatype EnvMatches = EnvMatches(begins: seq<String>, ends: seq<String>)

  /** A sectioning command: its name (`section`, `chapter`, ...) and its title. */
  datatype Command = Command(kind: String, title: String)

  /** The results of the three regular expressions on a line. */
  datatype Regexes = Regexes(envs: String -> EnvMatches, section: String -> Option<Command>)

  /** `latexSectionLevels`, with Go's zero value for a name it does not list. */
  function LevelOf(kind: String): (l: int)
    ensures 0 <= l <= 6
  {
    if kind == "part" then 0
    else if kind == "chapter" then 1
    else if kind == "section" then 2
    else if kind == "subsection" then 3
    else if kind == "subsubsection" then 4
    else if kind == "paragraph" then 5
    else if kind == "subparagraph" then 6
    else 0
  }

  const Protected: set<String> := {"verbatim", "lstlisting", "comment", "minted"}

  const MathEnvs: set<String> :=
    {"equation", "equation*", "align", "align*", "gather", "gather*", "multline", "multline*",
     "eqnarray", "eqnarray*", "displaymath", "math"}

  // ---------------------------------------------------------------------
  // The environment stack

  /** `s` without its last occurrence of `name`. */
  function RemoveLast(s: seq<String>, name: String): seq<String>
  {
    if |s| == 0 then []
    else if s[|s| - 1] == name then s[..|s| - 1]
    else RemoveLast(s[..|s| - 1], name) + [s[|s| - 1]]
  }

  lemma {:induction false} RemoveLastAbsent(s: seq<String>, name: String)
    requires name !in s
    ensures RemoveLast(s, name) == s
    decreases |s|
  {
    if |s| > 0 {
      RemoveLastAbsent(s[..|s| - 1], name);
    }
  }

  lemma {:induction false} RemoveLastAt(s: seq<String>, name: String, i: int)
    requires 0 <= i < |s| && s[i] == name && name !in s[i + 1..]
    ensures RemoveLast(s, name) == s[..i] + s[i + 1..]
    decreases |s|
  {
    var n := |s| - 1;
    if i < n {
      assert s[n] in s[i + 1..];
      var init := s[..n];
      assert init[i + 1..] == s[i + 1..n];
      RemoveLastAt(init, name, i);
      assert s[..i] + s[i + 1..] == init[..i] + init[i + 1..] + [s[n]];
    }
  }

  /** An `\end` removes the most recent matching environment and nothing else; an unmatched one removes nothing. */
  lemma RemoveLastSpec(s: seq<String>, name: String)
    ensures name !in s ==> RemoveLast(s, name) == s
    ensures forall i :: 0 <= i < |s| && s[i] == name && name !in s[i + 1..] ==> RemoveLast(s, name) == s[..i] + s[i + 1..]
  {
    if name !in s {
      RemoveLastAbsent(s, name);
    }
    forall i | 0 <= i < |s| && s[i] == name && name !in s[i + 1..] ensures RemoveLast(s, name) == s[..i] + s[i + 1..] {
      RemoveLastAt(s, name, i);
    }
  }

  /** The backward search of one `\end`. */
  method PopMatching(s: seq<String>, name: String) returns (r: seq<String>)
    ensures r == RemoveLast(s, name)
  {
    var i := |s| - 1;
    while i >= 0
      invariant -1 <= i < |s|
      invariant name !in s[i + 1..]
      decreases i + 1
    {
      if s[i] == name {
        RemoveLastAt(s, name, i);
        return s[..i] + s[i + 1..];
      }
      assert s[i + 1..] == s[i..][1..];
      i := i - 1;
    }
    assert s[0..] == s;
    RemoveLastAbsent(s, name);
    return s;
  }

  /** The `\end`s of a line, applied in order. */
  function PopAll(s: seq<String>, ends: seq<String>): seq<String>
  {
    if |ends| == 0 then s else RemoveLast(PopAll(s, ends[..|ends| - 1]), ends[|ends| - 1])
  }

  /** The stack after a line: its `\begin`s pushed, then its `\end`s popped. */
  function Track(s: seq<String>, m: EnvMatches): seq<String>
  {
    PopAll(s + m.begins, m.ends)
  }

  /** The two loops over a line's matches. */
  method TrackEnvs(s: seq<String>, m: EnvMatches) returns (r: seq<String>)
    ensures r == Track(s, m)
  {
    r := s;
    for k := 0 to |m.begins|
      invariant r == s + m.begins[..k]
    {
      assert m.begins[..k + 1] == m.begins[..k] + [m.begins[k]];
      r := r + [m.begins[k]];
    }
    assert m.begins[..|m.begins|] == m.begins;
    ghost var pushed := r;
    for k := 0 to |m.ends|
      invariant r == PopAll(pushed, m.ends[..k])
    {
      assert m.ends[..k + 1][..k] == m.ends[..k];
      r := PopMatching(r, m.ends[k]);
    }
    assert m.ends[..|m.ends|] == m.ends;
  }

  /** Some open environment is one of `names`. */
  predicate Within(envs: seq<String>, names: set<String>)
  {
    exists i :: 0 <= i < |envs| && envs[i] in names
  }

  /** The search loop over the open environments. */
  method AnyWithin(envs: seq<String>, names: set<String>) returns (b: bool)
    ensures b == Within(envs, names)
  {
    for i := 0 to |envs|
      invariant forall j :: 0 <= j < i ==> envs[j] !in names
    {
      if envs[i] in names {
        return true;
      }
    }
    return false;
  }

  // ---------------------------------------------------------------------
  // splitBySections

  /** The variables of `splitBySections`. */
  datatype Splitter = Splitter(sections: seq<Section>, current: String, heading: String, level: int,
                               stack: seq<String>, envs: seq<String>)

  const Start := Splitter([], [], [], 0, [], [])

  /** `flushSection`: keep the section unless it has neither text nor heading; start a new text. */
  function Flush(st: Splitter): Splitter
  {
    if st.current != [] || st.heading != [] then
      st.(sections := st.sections + [Section(st.heading, st.level, st.current, Join(st.stack, " > "))], current := [])
    else st.(current := [])
  }

  /** The first `level` headings of the stack. */
  function Truncate(stack: seq<String>, level: nat): seq<String>
  {
    if |stack| > level then stack[..level] else stack
  }

  /** A sectioning command: flush, cut the stack to the command's level, push the title. */
  function Open(st: Splitter, cmd: Command): Splitter
  {
    var f := Flush(st);
    var level := LevelOf(cmd.kind);
    f.(stack := Truncate(f.stack, level) + [cmd.title], heading := cmd.title, level := level + 1)
  }

  /** One line of `splitBySections`. */
  function LineStep(st: Splitter, line: String, rx: Regexes): Splitter
  {
    var envs := Track(st.envs, rx.envs(line));
    var st1 := st.(envs := envs);
    var st2 := if !Within(envs, Protected) && rx.section(line).Some? then Open(st1, rx.section(line).value) else st1;
    st2.(current := st2.current + line + "\n")
  }

  function RunLines(lines: seq<String>, rx: Regexes): Splitter
  {
    if |lines| == 0 then Start else LineStep(RunLines(lines[..|lines| - 1], rx), lines[|lines| - 1], rx)
  }

  /** `splitBySections`. */
  function SplitBySections(text: String, rx: Regexes): seq<Section>
  {
    Flush(RunLines(Split(text, "\n"), rx)).sections
  }

  /**
   * A sectioning command keeps only the headings above its level, pushes its
   * title, and gives the new section the level after the command's.
   */
  lemma OpenTruncates(st: Splitter, cmd: Command)
    ensures var st' := Open(st, cmd);
      var n := |st'.stack|;
      && st'.level == LevelOf(cmd.kind) + 1 && st'.heading == cmd.title
      && 0 < n <= LevelOf(cmd.kind) + 1 && n - 1 <= |st.stack|
      && st'.stack[n - 1] == cmd.title && st'.stack[..n - 1] == st.stack[..n - 1]
      && st'.sections == Flush(st).sections
  {
  }

  /** Inside a protected environment a sectioning command is ordinary text. */
  lemma ProtectedIgnored(st: Splitter, line: String, rx: Regexes)
    requires Within(Track(st.envs, rx.envs(line)), Protected)
    ensures var st' := LineStep(st, line, rx);
      && st'.sections == st.sections && st'.heading == st.heading && st'.level == st.level && st'.stack == st.stack
      && st'.current == st.current + line + "\n"
  {
  }

  /** The heading stack never holds more titles than the current level. */
  lemma {:induction false} StackWithinLevel(lines: seq<String>, rx: Regexes)
    ensures |RunLines(lines, rx).stack| <= RunLines(lines, rx).level
    decreases |lines|
  {
    if |lines| > 0 {
      StackWithinLevel(lines[..|lines| - 1], rx);
    }
  }

  /** The section texts, end to end. */
  function Bodies(secs: seq<Section>): String
  {
    if |secs| == 0 then [] else secs[0].content + Bodies(secs[1..])
  }

  lemma {:induction false} BodiesSnoc(secs: seq<Section>, s: Section)
    ensures Bodies(secs + [s]) == Bodies(secs) + s.content
    decreases |secs|
  {
    if |secs| == 0 {
      assert [s][1..] == [];
    } else {
      assert (secs + [s])[1..] == secs[1..] + [s];
      BodiesSnoc(secs[1..], s);
    }
  }

  /** Each line followed by a newline. */
  function Lined(lines: seq<String>): String
  {
    if |lines| == 0 then [] else Lined(lines[..|lines| - 1]) + lines[|lines| - 1] + "\n"
  }

  lemma {:induction false} LinedJoin(lines: seq<String>)
    requires |lines| > 0
    ensures Lined(lines) == Join(lines, "\n") + "\n"
    decreases |lines|
  {
    if |lines| > 1 {
      LinedJoin(lines[..|lines| - 1]);
    }
  }

  lemma FlushKeepsText(st: Splitter)
    ensures Bodies(Flush(st).sections) + Flush(st).current == Bodies(st.sections) + st.current
  {
    if st.current != [] || st.heading != [] {
      BodiesSnoc(st.sections, Section(st.heading, st.level, st.current, Join(st.stack, " > ")));
    }
  }

  lemma StepKeepsText(st: Splitter, line: String, rx: Regexes)
    ensures Bodies(LineStep(st, line, rx).sections) + LineStep(st, line, rx).current
         == Bodies(st.sections) + st.current + line + "\n"
  {
    var envs := Track(st.envs, rx.envs(line));
    var st1 := st.(envs := envs);
    if !Within(envs, Protected) && rx.section(line).Some? {
      FlushKeepsText(st1);
    }
  }

  lemma {:induction false} RunKeepsText(lines: seq<String>, rx: Regexes)
    ensures Bodies(RunLines(lines, rx).sections) + RunLines(lines, rx).current == Lined(lines)
    decreases |lines|
  {
    if |lines| > 0 {
      var init := lines[..|lines| - 1];
      var line := lines[|lines| - 1];
      RunKeepsText(init, rx);
      StepKeepsText(RunLines(init, rx), line, rx);
      hide LineStep, Bodies;
      assert RunLines(lines, rx) == LineStep(RunLines(init, rx), line, rx);
      assert Lined(lines) == Lined(init) + line + "\n";
    }
  }

  /** The sections, end to end, are the text with a newline after each line. */
  lemma SectionsCoverText(text: String, rx: Regexes)
    ensures Bodies(SplitBySections(text, rx)) == text + "\n"
  {
    var lines := Split(text, "\n");
    RunKeepsText(lines, rx);
    FlushKeepsText(RunLines(lines, rx));
    LinedJoin(lines);
    JoinSplit(text, "\n");
  }

  /** One line of the loop. */
  method SplitLine(st: Splitter, line: String, rx: Regexes) returns (st': Splitter)
    ensures st' == LineStep(st, line, rx)
  {
    var envs := TrackEnvs(st.envs, rx.envs(line));
    var guarded := AnyWithin(envs, Protected);
    st' := st.(envs := envs);
    if !guarded {
      var m := rx.section(line);
      if m.Some? {
        var level := LevelOf(m.value.kind);
        if st'.current != [] || st'.heading != [] {
          st' := st'.(sections := st'.sections + [Section(st'.heading, st'.level, st'.current, Join(st'.stack, " > "))]);
        }
        st' := st'.(current := []);
        var stack := st'.stack;
        if |stack| > level {
          stack := stack[..level];
        }
        st' := st'.(stack := stack + [m.value.title], heading := m.value.title, level := level + 1);
      }
    }
    st' := st'.(current := st'.current + line + "\n");
  }

  /** `splitBySections`. */
  method SplitSections(text: String, rx: Regexes) returns (sections: seq<Section>)
    ensures sections == SplitBySections(text, rx)
  {
    var lines := Split(text, "\n");
    var st := Start;
    for i := 0 to |lines|
      invariant st == RunLines(lines[..i], rx)
    {
      assert lines[..i + 1][..i] == lines[..i];
      st := SplitLine(st, lines[i], rx);
    }
    assert lines[..|lines|] == lines;
    if st.current != [] || st.heading != [] {
      st := st.(sections := st.sections + [Section(st.heading, st.level, st.current, Join(st.stack, " > "))]);
    }
    sections := st.sections;
  }

  // ---------------------------------------------------------------------
  // splitPreservingMath

  /** The variables of `splitPreservingMath`. */
  datatype Paras = Paras(result: seq<String>, current: String, envs: seq<String>)

  function ParaStep(p: Paras, line: String, rx: Regexes): Paras
  {
    var envs := Track(p.envs, rx.envs(line));
    if TrimSpace(line) == [] && !Within(envs, MathEnvs) && |p.current| > 0 then Paras(p.result + [p.current], [], envs)
    else Paras(p.result, if |p.current| > 0 then p.current + "\n" + line else line, envs)
  }

  function ParaRun(lines: seq<String>, rx: Regexes): Paras
  {
    if |lines| == 0 then Paras([], [], []) else ParaStep(ParaRun(lines[..|lines| - 1], rx), lines[|lines| - 1], rx)
  }

  /** The paragraphs so far, with the open one. */
  function Out(p: Paras): seq<String>
  {
    if |p.current| > 0 then p.result + [p.current] else p.result
  }

  /** `splitPreservingMath`. */
  function SplitPreservingMath(content: String, rx: Regexes): seq<String>
  {
    Out(ParaRun(Split(content, "\n"), rx))
  }

  /** A blank line inside a math environment never ends a paragraph. */
  lemma MathNeverSplits(p: Paras, line: String, rx: Regexes)
    requires Within(Track(p.envs, rx.envs(line)), MathEnvs)
    ensures ParaStep(p, line, rx).result == p.result
    ensures |p.current| > 0 ==> ParaStep(p, line, rx).current == p.current + "\n" + line
  {
  }

  /** The paragraph output so far is no longer than the lines read; a paragraph break leaves one character spare. */
  predicate Shorter(p: Paras, read: String)
  {
    && (forall k :: 0 <= k < |p.result| ==> p.result[k] != [])
    && |Join(Out(p), "\n\n")| + (if |p.result| > 0 && |p.current| == 0 then 1 else 0) <= |read|
  }

  lemma ParaStepShorter(p: Paras, line: String, rx: Regexes, read: String, first: bool)
    requires Shorter(p, read) && (first ==> p == Paras([], [], []))
    requires (|p.result| > 0 || |p.current| > 0) ==> !first
    ensures Shorter(ParaStep(p, line, rx), if first then line else read + "\n" + line)
  {
    hide TrimSpace;
    var envs := Track(p.envs, rx.envs(line));
    var p' := ParaStep(p, line, rx);
    if TrimSpace(line) == [] && !Within(envs, MathEnvs) && |p.current| > 0 {
      assert p' == Paras(p.result + [p.current], [], envs);
      hide ParaStep, Shorter;
      FlushShorter(p, envs, read, line);
    } else if |p.current| > 0 {
      assert p' == Paras(p.result, p.current + "\n" + line, envs);
      hide ParaStep, Shorter;
      ExtendShorter(p, envs, read, line);
    } else {
      assert p' == Paras(p.result, line, envs);
      hide ParaStep, Shorter;
      OpenShorter(p, envs, read, line, first);
    }
  }

  /** Closing the open paragraph keeps the text the same length, plus the line read. */
  lemma FlushShorter(p: Paras, envs: seq<String>, read: String, line: String)
    requires Shorter(p, read) && |p.current| > 0
    ensures Shorter(Paras(p.result + [p.current], [], envs), read + "\n" + line)
  {
    assert Out(Paras(p.result + [p.current], [], envs)) == Out(p);
  }

  /** Adding the line to the open paragraph adds a newline and the line. */
  lemma ExtendShorter(p: Paras, envs: seq<String>, read: String, line: String)
    requires Shorter(p, read) && |p.current| > 0
    ensures Shorter(Paras(p.result, p.current + "\n" + line, envs), read + "\n" + line)
  {
    if |p.result| > 0 {
      JoinSnoc(p.result, p.current + "\n" + line, "\n\n");
      JoinSnoc(p.result, p.current, "\n\n");
    }
  }

  /** Opening a paragraph with the line adds at most the separator and the line. */
  lemma OpenShorter(p: Paras, envs: seq<String>, read: String, line: String, first: bool)
    requires Shorter(p, read) && |p.current| == 0 && (first ==> p.result == []) && (|p.result| > 0 ==> !first)
    ensures Shorter(Paras(p.result, line, envs), if first then line else read + "\n" + line)
  {
    if |line| > 0 && |p.result| > 0 {
      JoinSnoc(p.result, line, "\n\n");
    }
  }

  lemma {:induction false} ParaRunShorter(lines: seq<String>, rx: Regexes)
    requires |lines| > 0
    ensures Shorter(ParaRun(lines, rx), Join(lines, "\n"))
    decreases |lines|
  {
    var init := lines[..|lines| - 1];
    var line := lines[|lines| - 1];
    if |init| == 0 {
      ParaStepShorter(Paras([], [], []), line, rx, [], true);
    } else {
      ParaRunShorter(init, rx);
      ParaStepShorter(ParaRun(init, rx), line, rx, Join(init, "\n"), false);
    }
  }

  /**
   * The paragraphs are non-empty, and joined with blank lines they are no
   * longer than the section: a paragraph break consumes at least one line.
   */
  lemma ParagraphsShorter(content: String, rx: Regexes)
    ensures var ps := SplitPreservingMath(content, rx);
      && (forall k :: 0 <= k < |ps| ==> ps[k] != [])
      && |Join(ps, "\n\n")| <= |content|
  {
    var lines := Split(content, "\n");
    ParaRunShorter(lines, rx);
    JoinSplit(content, "\n");
  }

  /** The loop of `splitPreservingMath`. */
  method SplitMath(content: String, rx: Regexes) returns (result: seq<String>)
    ensures result == SplitPreservingMath(content, rx)
  {
    hide TrimSpace;
    var lines := Split(content, "\n");
    var p := Paras([], [], []);
    for i := 0 to |lines|
      invariant p == ParaRun(lines[..i], rx)
    {
      assert lines[..i + 1][..i] == lines[..i];
      var line := lines[i];
      assert ParaRun(lines[..i + 1], rx) == ParaStep(p, line, rx);
      var envs := TrackEnvs(p.envs, rx.envs(line));
      var inMath := AnyWithin(envs, MathEnvs);
      if TrimSpace(line) == [] && !inMath && |p.current| > 0 {
        p := Paras(p.result + [p.current], [], envs);
      } else {
        p := Paras(p.result, if |p.current| > 0 then p.current + "\n" + line else line, envs);
      }
    }
    assert lines[..|lines|] == lines;
    result := if |p.current| > 0 then p.result + [p.current] else p.result;
  }

  // ---------------------------------------------------------------------
  // Chunk

  /** A section as a unit: cut into trimmed, non-blank paragraphs joined by a blank line when too large. */
  function UnitOf(s: Section, rx: Regexes): Unit<Doc>
  {
    Unit(s.content, Kept(SplitPreservingMath(s.content, rx)), "\n\n", Doc(s.heading, s.level, s.path))
  }

  function Units(secs: seq<Section>, rx: Regexes): (r: seq<Unit<Doc>>)
    ensures |r| == |secs| && forall k :: 0 <= k < |r| ==> r[k] == UnitOf(secs[k], rx)
  {
    seq(|secs|, k requires 0 <= k < |secs| => UnitOf(secs[k], rx))
  }

  lemma {:induction false} WholeUnits(secs: seq<Section>, rx: Regexes)
    ensures Whole(Units(secs, rx)) == Bodies(secs)
    decreases |secs|
  {
    if |secs| > 0 {
      WholeUnits(secs[1..], rx);
      assert Units(secs, rx)[1..] == Units(secs[1..], rx);
    }
  }

  lemma UnitsFitting(secs: seq<Section>, rx: Regexes)
    ensures AllFitting(Units(secs, rx))
  {
    forall k | 0 <= k < |secs| ensures Fitting(Units(secs, rx)[k]) {
      var ps := SplitPreservingMath(secs[k].content, rx);
      ParagraphsShorter(secs[k].content, rx);
      KeptShorter(ps, "\n\n");
    }
  }

  /** `Chunk`. */
  function ChunkLatex(content: String, maxSize: int, rx: Regexes): ChunkResult<Doc>
  {
    if |content| == 0 then EmptyResult(Name)
    else
      var chunks := Assemble(Units(SplitBySections(content, rx), rx), Limit(maxSize), 0, 0);
      ChunkResult(chunks, |chunks|, Name, |content|)
  }

  /**
   * The chunks are numbered from 0, each spans exactly its text, they come
   * in order without overlap within the text and its final newline, and one
   * exceeds the limit only when it is a single paragraph of its section.
   */
  lemma ChunksSound(content: String, maxSize: int, rx: Regexes)
    requires |content| > 0
    ensures var r := ChunkLatex(content, maxSize, rx);
      var secs := SplitBySections(content, rx);
      && r.totalChunks == |r.chunks| && r.originalSize == |content| && r.chunkerUsed == Name
      && Sequential(r.chunks) && Widths(r.chunks)
      && Laid(r.chunks, 0, |content| + 1, 0)
      && forall k :: 0 <= k < |r.chunks| ==>
           (|r.chunks[k].content| <= Limit(maxSize)
            || exists i :: 0 <= i < |secs| && r.chunks[k].content in Kept(SplitPreservingMath(secs[i].content, rx)))
  {
    var secs := SplitBySections(content, rx);
    var units := Units(secs, rx);
    var m := Limit(maxSize);
    UnitsFitting(secs, rx);
    AssembleLaid(units, m, 0, 0);
    AssembleFits(units, m, 0, 0);
    WholeUnits(secs, rx);
    SectionsCoverText(content, rx);
    var cs := Assemble(units, m, 0, 0);
    forall k | 0 <= k < |cs|
      ensures |cs[k].content| <= m || exists i :: 0 <= i < |secs| && cs[k].content in Kept(SplitPreservingMath(secs[i].content, rx))
    {
      assert Sections.Fits(cs[k], units, m);
    }
  }

  /** The sections of `Chunk`, each with its paragraphs. */
  method SectionUnits(secs: seq<Section>, rx: Regexes) returns (units: seq<Unit<Doc>>)
    ensures units == Units(secs, rx)
  {
    hide SplitPreservingMath, Kept;
    units := [];
    for k := 0 to |secs|
      invariant units == Units(secs[..k], rx)
    {
      var s := secs[k];
      var paras := SplitMath(s.content, rx);
      units := units + [Unit(s.content, Kept(paras), "\n\n", Doc(s.heading, s.level, s.path))];
    }
    assert secs[..|secs|] == secs;
  }

  /** `Chunk`: the sections, their paragraphs, and the loop over them. */
  method Chunk(content: String, maxSize: int, rx: Regexes) returns (r: ChunkResult<Doc>)
    ensures r == ChunkLatex(content, maxSize, rx)
  {
    if |content| == 0 {
      return EmptyResult(Name);
    }
    var m := if maxSize <= 0 then DefaultMaxChunkSize else maxSize;
    var secs := SplitSections(content, rx);
    var units := SectionUnits(secs, rx);
    var chunks := EmitUnits(units, m);
    return ChunkResult(chunks, |chunks|, Name, |content|);
  }
}
