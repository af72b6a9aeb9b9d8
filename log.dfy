/**
 * The log chunker (internal/chunkers/log.go). Lines are gathered into
 * chunks; a chunk closes before a line that would take it past the limit,
 * or before an error line once it is past half the limit, and in both cases
 * only once it holds at least 500 bytes. Every chunk carries its lines'
 * predominant level, error count and time span. A line's level and time
 * come from regular expressions and `time.Parse`, and the file's format from
 * `detectFormat`: all three are inputs here. Times are integers, 0 standing
 * for Go's zero `time.Time` (1 January of year 1) and negative values for
 * earlier instants, such as the year 0 that `time.Parse` gives a syslog
 * timestamp, which has no year.
 */
module Log {
  import opened Text
  import opened Chunks

  const Name: String := "log"

  /** `logMinChunkSize`: no chunk is closed early below this many bytes. */
  const MinChunkSize := 500

  /** `CanHandle`. */
  predicate CanHandle(mimeType: String, language: String)
  {
    var mime := ToLower(mimeType);
    var lang := ToLower(language);
    || mime == "text/x-log" || mime == "application/x-log"
    || HasSuffix(lang, ".log") || HasSuffix(lang, ".logs") || HasSuffix(lang, ".out")
    || lang == "log" || lang == "logs" || lang == "accesslog"
  }

  /**
   * A name ending in ".log", ".logs" or ".out" is accepted whatever its
   * case; anything else only as one of the two log MIME types or the three
   * hints.
   */
  lemma CanHandleCases(mimeType: String, language: String)
    ensures HasSuffix(ToLower(language), ".log") || HasSuffix(ToLower(language), ".out") ==> CanHandle(mimeType, language)
    ensures CanHandle(mimeType, language) <==>
      || ToLower(mimeType) in {"text/x-log", "application/x-log"}
      || HasSuffix(ToLower(language), ".log") || HasSuffix(ToLower(language), ".logs") || HasSuffix(ToLower(language), ".out")
      || ToLower(language) in {"log", "logs", "accesslog"}
  {
  }

  // ---------------------------------------------------------------------
  // normalizeLevel

  const Levels: set<String> := {"FATAL", "ERROR", "WARN", "INFO", "DEBUG"}

  /** The switch of `normalizeLevel` on the trimmed, upper-cased level. */
  function Canonical(l: String): (r: String)
    ensures r in Levels || r == l
  {
    if l == "FATAL" || l == "CRITICAL" || l == "ALERT" || l == "EMERGENCY" then "FATAL"
    else if l == "ERROR" || l == "ERR" || l == "SEVERE" then "ERROR"
    else if l == "WARN" || l == "WARNING" then "WARN"
    else if l == "INFO" || l == "INFORMATION" || l == "INFORMATIONAL" then "INFO"
    else if l == "DEBUG" || l == "TRACE" || l == "VERBOSE" || l == "FINE" || l == "FINEST" then "DEBUG"
    else l
  }

  /** `normalizeLevel`: the synonyms of the five levels map to them; anything else is passed on trimmed and upper-cased. */
  function NormalizeLevel(level: String): String
  {
    Canonical(ToUpper(TrimSpace(level)))
  }

  lemma UpperTwice(s: String)
    ensures ToUpper(ToUpper(s)) == ToUpper(s)
  {
  }

  lemma TrimUpper(s: String)
    requires s == [] || (!IsSpace(s[0]) && !IsSpace(s[|s| - 1]))
    ensures TrimSpace(ToUpper(s)) == ToUpper(s)
  {
    var u := ToUpper(s);
    if |s| > 0 {
      assert !IsSpace(u[0]) && !IsSpace(u[|u| - 1]);
      assert LeadingIn(u, IsSpace) == 0;
      assert TrimLeft(u) == u;
      assert KeptIn(u, IsSpace) == |u|;
    }
  }

  /**
   * The result is one of the five levels or the trimmed, upper-cased input,
   * and normalizing it again changes nothing.
   */
  lemma NormalizeLevelSound(level: String)
    ensures NormalizeLevel(level) in Levels || NormalizeLevel(level) == ToUpper(TrimSpace(level))
    ensures NormalizeLevel(NormalizeLevel(level)) == NormalizeLevel(level)
  {
    var t := TrimSpace(level);
    var u := ToUpper(t);
    TrimUpper(t);
    UpperTwice(t);
    var r := Canonical(u);
    if r in Levels {
      LevelFixed(r);
    }
  }

  /** A word of capital letters is its own trimmed, upper-cased form. */
  lemma CapitalsNormal(s: String)
    requires forall i :: 0 <= i < |s| ==> 'A' <= s[i] <= 'Z'
    ensures ToUpper(TrimSpace(s)) == s
  {
    assert ToUpper(s) == s;
    TrimUpper(s);
  }

  /** Each of the five levels is its own canonical form. */
  lemma CanonicalFixed(r: String)
    requires r in Levels
    ensures Canonical(r) == r
  {
    if r == "FATAL" {
      assert Canonical("FATAL") == "FATAL";
    } else if r == "ERROR" {
      assert Canonical("ERROR") == "ERROR";
    } else if r == "WARN" {
      assert Canonical("WARN") == "WARN";
    } else if r == "INFO" {
      assert Canonical("INFO") == "INFO";
    } else {
      assert Canonical("DEBUG") == "DEBUG";
    }
  }

  lemma LevelFixed(r: String)
    requires r in Levels
    ensures NormalizeLevel(r) == r
  {
    CanonicalFixed(r);
    assert forall i :: 0 <= i < |r| ==> 'A' <= r[i] <= 'Z';
    CapitalsNormal(r);
  }

  // ---------------------------------------------------------------------
  // Tallies

  predicate IsError(level: String)
  {
    level == "ERROR" || level == "FATAL"
  }

  /**
   * What a chunk has tallied: the level of every line (`levelCounts` is
   * their multiset; the sequence also fixes the order in which the levels
   * were first seen), the error lines and the time span.
   */
  datatype Tally = Tally(levels: seq<String>, errors: nat, start: int, end: int)

  const Fresh := Tally([], 0, 0, 0)

  /**
   * The time span after a line with time `t`; 0 is "no time". As written,
   * the end moves only to a time after the current end, which starts at the
   * zero time, so a time before year 1 never becomes the end; `fixed` also
   * moves an unset end.
   */
  function Track(start: int, end: int, t: int, fixed: bool): (int, int)
  {
    if t == 0 then (start, end)
    else
      (if start == 0 || t < start then t else start,
       if (fixed && end == 0) || t > end then t else end)
  }

  function Count(t: Tally, level: String, time: int, fixed: bool): Tally
  {
    var (start, end) := Track(t.start, t.end, time, fixed);
    Tally(t.levels + [level], t.errors + (if IsError(level) then 1 else 0), start, end)
  }

  /**
   * The flush's search for the predominant level over `levels`, each
   * counted in `all`: a level replaces the best so far only with a strictly
   * larger count. Going through the levels in first-seen order stands for
   * Go's map iteration, whose order is unspecified and decides only ties.
   */
  function Best(levels: seq<String>, all: multiset<String>): (String, nat)
  {
    if |levels| == 0 then ("INFO", 0)
    else
      var (b, m) := Best(levels[..|levels| - 1], all);
      var l := levels[|levels| - 1];
      if all[l] > m then (l, all[l]) else (b, m)
  }

  function Predominant(levels: seq<String>): String
  {
    Best(levels, multiset(levels)).0
  }

  lemma {:induction false} BestMax(levels: seq<String>, all: multiset<String>)
    requires forall l :: l in levels ==> all[l] > 0
    ensures var (b, m) := Best(levels, all);
      && (|levels| == 0 ==> b == "INFO" && m == 0)
      && (|levels| > 0 ==> b in levels && m == all[b])
      && forall l :: l in levels ==> all[l] <= m
  {
    if |levels| > 0 {
      var init := levels[..|levels| - 1];
      assert forall l :: l in init ==> l in levels;
      BestMax(init, all);
    }
  }

  /**
   * The predominant level is "INFO" when nothing was tallied; otherwise it is
   * a tallied level and no level was tallied more often.
   */
  lemma PredominantSound(levels: seq<String>)
    ensures |levels| == 0 ==> Predominant(levels) == "INFO"
    ensures |levels| > 0 ==> Predominant(levels) in levels
    ensures forall l :: multiset(levels)[l] <= multiset(levels)[Predominant(levels)]
  {
    BestMax(levels, multiset(levels));
  }

  /** The tally of `lines`, counted one line after another. */
  function TallyOf(lines: seq<String>, levelOf: String -> String, timeOf: String -> int, fixed: bool): Tally
  {
    if |lines| == 0 then Fresh
    else
      var l := lines[|lines| - 1];
      Count(TallyOf(lines[..|lines| - 1], levelOf, timeOf, fixed), levelOf(l), timeOf(l), fixed)
  }

  /** The levels of `lines`, in order. */
  function LevelsOf(lines: seq<String>, levelOf: String -> String): (r: seq<String>)
    ensures |r| == |lines| && forall k :: 0 <= k < |r| ==> r[k] == levelOf(lines[k])
  {
    seq(|lines|, k requires 0 <= k < |lines| => levelOf(lines[k]))
  }

  /** The number of error lines in `lines`. */
  function ErrorLines(lines: seq<String>, levelOf: String -> String): nat
  {
    if |lines| == 0 then 0
    else ErrorLines(lines[..|lines| - 1], levelOf) + (if IsError(levelOf(lines[|lines| - 1])) then 1 else 0)
  }

  /** `t` is the time of some line of `lines`. */
  predicate TimeOfSome(lines: seq<String>, timeOf: String -> int, t: int)
  {
    exists k :: 0 <= k < |lines| && timeOf(lines[k]) == t
  }

  /** The span `start`..`end` of the times of `lines`, 0 when no line has one. */
  predicate SpanOf(lines: seq<String>, timeOf: String -> int, start: int, end: int)
  {
    && ((forall k :: 0 <= k < |lines| ==> timeOf(lines[k]) == 0) <==> start == 0)
    && (start == 0 <==> end == 0)
    && (start != 0 ==> TimeOfSome(lines, timeOf, start) && TimeOfSome(lines, timeOf, end))
    && forall k :: 0 <= k < |lines| && timeOf(lines[k]) != 0 ==> start <= timeOf(lines[k]) <= end
  }

  lemma TrackKeepsSpan(init: seq<String>, l: String, timeOf: String -> int, start: int, end: int)
    requires SpanOf(init, timeOf, start, end)
    ensures var (s, e) := Track(start, end, timeOf(l), true); SpanOf(init + [l], timeOf, s, e)
  {
    var lines := init + [l];
    assert forall k :: 0 <= k < |init| ==> lines[k] == init[k];
    if start != 0 {
      var i :| 0 <= i < |init| && timeOf(init[i]) == start;
      var j :| 0 <= j < |init| && timeOf(init[j]) == end;
      assert timeOf(lines[i]) == start && timeOf(lines[j]) == end;
    }
    assert lines[|init|] == l;
  }

  lemma {:induction false} TallySpan(lines: seq<String>, levelOf: String -> String, timeOf: String -> int)
    ensures var t := TallyOf(lines, levelOf, timeOf, true); SpanOf(lines, timeOf, t.start, t.end)
    decreases |lines|
  {
    if |lines| > 0 {
      var init := lines[..|lines| - 1];
      var l := lines[|lines| - 1];
      assert init + [l] == lines;
      TallySpan(init, levelOf, timeOf);
      var t0 := TallyOf(init, levelOf, timeOf, true);
      TrackKeepsSpan(init, l, timeOf, t0.start, t0.end);
    }
  }

  lemma {:induction false} TallyCounts(lines: seq<String>, levelOf: String -> String, timeOf: String -> int, fixed: bool)
    ensures var t := TallyOf(lines, levelOf, timeOf, fixed);
      t.levels == LevelsOf(lines, levelOf) && t.errors == ErrorLines(lines, levelOf)
    decreases |lines|
  {
    if |lines| > 0 {
      var init := lines[..|lines| - 1];
      TallyCounts(init, levelOf, timeOf, fixed);
      assert LevelsOf(lines, levelOf) == LevelsOf(init, levelOf) + [levelOf(lines[|lines| - 1])];
    }
  }

  /**
   * The tally, with the end tracked as `fixed` has it, holds the lines'
   * levels in order and counts their error lines; its span is unset when no
   * line has a time and otherwise runs from the earliest time to the latest.
   */
  lemma TallySound(lines: seq<String>, levelOf: String -> String, timeOf: String -> int)
    ensures var t := TallyOf(lines, levelOf, timeOf, true);
      && t.levels == LevelsOf(lines, levelOf)
      && t.errors == ErrorLines(lines, levelOf)
      && ((forall k :: 0 <= k < |lines| ==> timeOf(lines[k]) == 0) <==> t.start == 0)
      && (t.start == 0 <==> t.end == 0)
      && (t.start != 0 ==> TimeOfSome(lines, timeOf, t.start) && TimeOfSome(lines, timeOf, t.end))
      && forall k :: 0 <= k < |lines| && timeOf(lines[k]) != 0 ==> t.start <= timeOf(lines[k]) <= t.end
  {
    TallyCounts(lines, levelOf, timeOf, true);
    TallySpan(lines, levelOf, timeOf);
  }

  // ---------------------------------------------------------------------
  // Chunk

  /** `LogMetadata` with the chunk type. */
  datatype Meta = Meta(chunkType: ChunkType, timeStart: int, timeEnd: int, level: String, format: String, errorCount: int)

  function MetaOf(t: Tally, format: String): Meta
  {
    Meta(StructuredChunk, t.start, t.end, Predominant(t.levels), format, t.errors)
  }

  /**
   * The loop's state: the chunks so far, `current`, the lines written to it
   * (kept so that a chunk can be compared with its lines), the tally and
   * the offset.
   */
  datatype Build = Build(done: seq<Chunk<Meta>>, cur: String, lines: seq<String>, tally: Tally, offset: int)

  /** `flushChunk`: nothing when `current` is empty, which keeps the tally. */
  function Flush(b: Build, format: String): Build
  {
    if |b.cur| == 0 then b
    else
      var c := Chunks.Chunk(|b.done|, b.cur, b.offset - |b.cur|, b.offset, MetaOf(b.tally, format));
      Build(b.done + [c], [], [], Fresh, b.offset)
  }

  /**
   * One line of `Chunk`. As written (`fixed` false) the line is tallied
   * before the flush and so goes to the chunk the flush closes, while its
   * text starts the next one; `fixed` tallies it after the flush, with the
   * chunk that holds it.
   */
  function Step(b: Build, line: String, level: String, time: int, maxSize: int, format: String, fixed: bool): Build
    requires maxSize > 0
  {
    var lineLen := |line| + 1;
    var counted := if fixed then b else b.(tally := Count(b.tally, level, time, false));
    var sizeFlush := |b.cur| + lineLen > maxSize && |b.cur| >= MinChunkSize;
    var errorFlush := IsError(level) && |b.cur| >= MinChunkSize && |b.cur| > maxSize / 2;
    var flushed := if sizeFlush || errorFlush then Flush(counted, format) else counted;
    var b' := if fixed then flushed.(tally := Count(flushed.tally, level, time, true)) else flushed;
    Append(b', line)
  }

  /** Writes `line` and its newline to `current` and moves the offset past them. */
  function Append(b: Build, line: String): (r: Build)
    ensures r.done == b.done && r.tally == b.tally
  {
    b.(cur := b.cur + line + "\n", lines := b.lines + [line], offset := b.offset + |line| + 1)
  }

  function Run(lines: seq<String>, levelOf: String -> String, timeOf: String -> int, maxSize: int, format: String, fixed: bool): Build
    requires maxSize > 0
  {
    if |lines| == 0 then Build([], [], [], Fresh, 0)
    else
      var l := lines[|lines| - 1];
      Step(Run(lines[..|lines| - 1], levelOf, timeOf, maxSize, format, fixed), l, levelOf(l), timeOf(l), maxSize, format, fixed)
  }

  /** The chunks of `lines`, after the last flush. */
  function LogChunks(lines: seq<String>, levelOf: String -> String, timeOf: String -> int, maxSize: int, format: String, fixed: bool): seq<Chunk<Meta>>
    requires maxSize > 0
  {
    Flush(Run(lines, levelOf, timeOf, maxSize, format, fixed), format).done
  }

  /**
   * `Chunk`, with each line tallied in the chunk that holds it and the time
   * span tracked from the first time on. `levelOf` is `extractLevel`,
   * `timeOf` is `extractTimestamp` and `format` is `detectFormat`'s answer.
   */
  function ChunkLog(content: String, format: String, levelOf: String -> String, timeOf: String -> int, maxSize: int): ChunkResult<Meta>
  {
    if |content| == 0 then EmptyResult(Name)
    else
      var chunks := LogChunks(Split(content, "\n"), levelOf, timeOf, Limit(maxSize), format, true);
      ChunkResult(chunks, |chunks|, Name, |content|)
  }

  /** `Chunk` as written. */
  function ChunkLogAsWritten(content: String, format: String, levelOf: String -> String, timeOf: String -> int, maxSize: int): ChunkResult<Meta>
  {
    if |content| == 0 then EmptyResult(Name)
    else
      var chunks := LogChunks(Split(content, "\n"), levelOf, timeOf, Limit(maxSize), format, false);
      ChunkResult(chunks, |chunks|, Name, |content|)
  }

  // ---------------------------------------------------------------------
  // What the chunks are

  /** The lines, each followed by the newline `Chunk` writes after it. */
  function Block(lines: seq<String>): (r: String)
    ensures |r| >= |lines|
  {
    if |lines| == 0 then [] else Block(lines[..|lines| - 1]) + lines[|lines| - 1] + "\n"
  }

  lemma {:induction false} BlockJoin(lines: seq<String>)
    requires |lines| > 0
    ensures Block(lines) == Join(lines, "\n") + "\n"
    decreases |lines|
  {
    if |lines| > 1 {
      BlockJoin(lines[..|lines| - 1]);
    }
  }

  /** Writing back every line of the split, each with its newline, gives the text and one more newline. */
  lemma BlockSplit(text: String)
    ensures Block(Split(text, "\n")) == text + "\n"
  {
    BlockJoin(Split(text, "\n"));
    JoinSplit(text, "\n");
  }

  /**
   * The layout the loop keeps: numbered, contiguous chunks from offset 0
   * whose texts, followed by `current`, are the lines written so far; every
   * flushed chunk has at least `MinChunkSize` bytes; and `current` holds
   * the lines it was given.
   */
  ghost predicate Laid(b: Build, lines: seq<String>)
  {
    && Sequential(b.done) && Widths(b.done) && Contiguous(b.done)
    && Texts(b.done) + b.cur == Block(lines)
    && b.cur == Block(b.lines)
    && b.offset == |Block(lines)|
    && (|b.done| > 0 ==> b.done[0].start == 0 && b.done[|b.done| - 1].end == b.offset - |b.cur|)
    && forall k :: 0 <= k < |b.done| ==> |b.done[k].content| >= MinChunkSize
  }

  /** A chunk fits `maxSize`, or it is short of `MinChunkSize` by less than one line of at most `w` bytes. */
  predicate Fits(text: String, maxSize: int, w: int)
  {
    |text| <= maxSize || |text| < MinChunkSize + w
  }

  /** Every chunk fits, and is a structured chunk in the detected format. */
  ghost predicate Sized(b: Build, maxSize: int, w: int, format: String)
  {
    && Fits(b.cur, maxSize, w)
    && forall k :: 0 <= k < |b.done| ==>
      Fits(b.done[k].content, maxSize, w) && b.done[k].meta.chunkType == StructuredChunk && b.done[k].meta.format == format
  }

  /** A chunk holds some lines, and its metadata is their tally. */
  ghost predicate Described(c: Chunk<Meta>, levelOf: String -> String, timeOf: String -> int, format: String)
  {
    exists ls :: c.content == Block(ls) && c.meta == MetaOf(TallyOf(ls, levelOf, timeOf, true), format)
  }

  ghost predicate Tallied(b: Build, levelOf: String -> String, timeOf: String -> int, format: String)
  {
    && b.tally == TallyOf(b.lines, levelOf, timeOf, true)
    && forall k :: 0 <= k < |b.done| ==> Described(b.done[k], levelOf, timeOf, format)
  }

  lemma FlushLaid(b: Build, lines: seq<String>, format: String)
    requires Laid(b, lines)
    ensures var f := Flush(b, format);
      && Texts(f.done) + f.cur == Block(lines) && f.cur == Block(f.lines) && f.offset == b.offset
      && Sequential(f.done) && Widths(f.done) && Contiguous(f.done)
      && (|f.done| > 0 ==> f.done[0].start == 0 && f.done[|f.done| - 1].end == f.offset - |f.cur|)
      && forall k :: 0 <= k < |b.done| ==> f.done[k] == b.done[k]
  {
    var f := Flush(b, format);
    if |b.cur| > 0 {
      assert f.done[..|b.done|] == b.done;
      forall k | 0 < k < |f.done|
        ensures Follows(f.done, k)
      {
        if k < |b.done| {
          assert Follows(b.done, k);
        }
      }
    }
  }

  lemma FlushSized(b: Build, format: String, maxSize: int, w: int)
    requires Sized(b, maxSize, w, format)
    ensures Sized(Flush(b, format), maxSize, w, format)
  {
  }

  lemma FlushTallied(b: Build, levelOf: String -> String, timeOf: String -> int, format: String)
    requires b.cur == Block(b.lines) && Tallied(b, levelOf, timeOf, format)
    ensures Tallied(Flush(b, format), levelOf, timeOf, format)
  {
    var f := Flush(b, format);
    if |b.cur| > 0 {
      assert f.done[|b.done|].content == Block(b.lines);
      assert Described(f.done[|b.done|], levelOf, timeOf, format);
    }
  }

  lemma AppendLaid(b: Build, lines: seq<String>, line: String)
    requires Texts(b.done) + b.cur == Block(lines) && b.cur == Block(b.lines) && b.offset == |Block(lines)|
    ensures var a := Append(b, line);
      Texts(a.done) + a.cur == Block(lines + [line]) && a.cur == Block(a.lines) && a.offset == |Block(lines + [line])|
  {
    var a := Append(b, line);
    assert (lines + [line])[..|lines|] == lines;
    assert (a.lines)[..|b.lines|] == b.lines;
  }

  /** The state after the flush decision of `Step`, before `Append`. */
  function Flushed(b: Build, line: String, level: String, time: int, maxSize: int, format: String, fixed: bool): Build
  {
    var counted := if fixed then b else b.(tally := Count(b.tally, level, time, false));
    var sizeFlush := |b.cur| + |line| + 1 > maxSize && |b.cur| >= MinChunkSize;
    var errorFlush := IsError(level) && |b.cur| >= MinChunkSize && |b.cur| > maxSize / 2;
    var flushed := if sizeFlush || errorFlush then Flush(counted, format) else counted;
    if fixed then flushed.(tally := Count(flushed.tally, level, time, true)) else flushed
  }

  lemma StepAppends(b: Build, line: String, level: String, time: int, maxSize: int, format: String, fixed: bool)
    requires maxSize > 0
    ensures Step(b, line, level, time, maxSize, format, fixed) == Append(Flushed(b, line, level, time, maxSize, format, fixed), line)
  {
  }

  lemma FlushedLaid(b: Build, lines: seq<String>, line: String, level: String, time: int, maxSize: int, format: String, fixed: bool)
    requires Laid(b, lines)
    ensures var f := Flushed(b, line, level, time, maxSize, format, fixed);
      && Texts(f.done) + f.cur == Block(lines) && f.cur == Block(f.lines) && f.offset == b.offset
      && Sequential(f.done) && Widths(f.done) && Contiguous(f.done)
      && (|f.done| > 0 ==> f.done[0].start == 0 && f.done[|f.done| - 1].end == f.offset - |f.cur|)
      && (forall k :: 0 <= k < |f.done| ==> |f.done[k].content| >= MinChunkSize)
      && (|f.cur| == 0 || f.cur == b.cur)
      && (f.cur == b.cur ==> |b.cur| + |line| + 1 <= maxSize || |b.cur| < MinChunkSize)
  {
    hide Count, Block, Texts, IsError;
    var counted := if fixed then b else b.(tally := Count(b.tally, level, time, false));
    assert Laid(counted, lines);
    FlushLaid(counted, lines, format);
  }

  lemma FlushedTallied(b: Build, line: String, levelOf: String -> String, timeOf: String -> int, maxSize: int, format: String)
    requires b.cur == Block(b.lines) && Tallied(b, levelOf, timeOf, format)
    ensures var f := Flushed(b, line, levelOf(line), timeOf(line), maxSize, format, true);
      Tallied(Append(f, line), levelOf, timeOf, format)
  {
    FlushTallied(b, levelOf, timeOf, format);
    var f := Flushed(b, line, levelOf(line), timeOf(line), maxSize, format, true);
    var n := Append(f, line);
    assert n.lines[..|n.lines| - 1] == f.lines;
  }

  lemma FlushedSized(b: Build, line: String, level: String, time: int, maxSize: int, format: String, fixed: bool, w: int)
    requires |line| < w && Sized(b, maxSize, w, format)
    ensures Sized(Append(Flushed(b, line, level, time, maxSize, format, fixed), line), maxSize, w, format)
  {
    hide Count, IsError;
    var counted := if fixed then b else b.(tally := Count(b.tally, level, time, false));
    assert Sized(counted, maxSize, w, format);
    FlushSized(counted, format, maxSize, w);
  }

  lemma {:induction false} StepSound(b: Build, lines: seq<String>, line: String, levelOf: String -> String, timeOf: String -> int,
                                    maxSize: int, format: String, fixed: bool, w: int)
    requires maxSize > 0 && |line| < w
    requires Laid(b, lines) && Sized(b, maxSize, w, format)
    requires fixed ==> Tallied(b, levelOf, timeOf, format)
    ensures var n := Step(b, line, levelOf(line), timeOf(line), maxSize, format, fixed);
      && Laid(n, lines + [line]) && Sized(n, maxSize, w, format)
      && (fixed ==> Tallied(n, levelOf, timeOf, format))
  {
    hide Step, Flushed, Count, Block, Texts, IsError, TallyOf;
    var f := Flushed(b, line, levelOf(line), timeOf(line), maxSize, format, fixed);
    StepAppends(b, line, levelOf(line), timeOf(line), maxSize, format, fixed);
    FlushedSized(b, line, levelOf(line), timeOf(line), maxSize, format, fixed, w);
    FlushedLaid(b, lines, line, levelOf(line), timeOf(line), maxSize, format, fixed);
    AppendLaid(f, lines, line);
    if fixed {
      FlushedTallied(b, line, levelOf, timeOf, maxSize, format);
    }
  }

  lemma {:induction false} RunSound(lines: seq<String>, levelOf: String -> String, timeOf: String -> int,
                                   maxSize: int, format: String, fixed: bool, w: int)
    requires maxSize > 0 && forall k :: 0 <= k < |lines| ==> |lines[k]| < w
    ensures var b := Run(lines, levelOf, timeOf, maxSize, format, fixed);
      && Laid(b, lines) && Sized(b, maxSize, w, format)
      && (fixed ==> Tallied(b, levelOf, timeOf, format))
    decreases |lines|
  {
    if |lines| > 0 {
      var init := lines[..|lines| - 1];
      var l := lines[|lines| - 1];
      assert lines == init + [l];
      RunSound(init, levelOf, timeOf, maxSize, format, fixed, w);
      StepSound(Run(init, levelOf, timeOf, maxSize, format, fixed), init, l, levelOf, timeOf, maxSize, format, fixed, w);
    }
  }

  /**
   * The chunks of `lines` are numbered and contiguous from offset 0, and
   * their texts are the lines, each with its newline; each is a non-empty
   * structured chunk in the detected format that fits `maxSize` unless a
   * line of at most `w` bytes carried it past `MinChunkSize`; every chunk
   * but the last has at least `MinChunkSize` bytes; and, tallied as fixed,
   * each chunk's metadata is the tally of its own lines.
   */
  ghost predicate WellChunked(cs: seq<Chunk<Meta>>, lines: seq<String>, levelOf: String -> String, timeOf: String -> int,
                              maxSize: int, format: String, fixed: bool, w: int)
  {
    && Sequential(cs) && Widths(cs) && Contiguous(cs)
    && Texts(cs) == Block(lines)
    && (|lines| > 0 <==> |cs| > 0)
    && (|cs| > 0 ==> cs[0].start == 0 && cs[|cs| - 1].end == |Block(lines)|)
    && (forall k :: 0 <= k < |cs| ==>
          && |cs[k].content| > 0 && Fits(cs[k].content, maxSize, w)
          && cs[k].meta.chunkType == StructuredChunk && cs[k].meta.format == format)
    && (forall k :: 0 <= k < |cs| - 1 ==> |cs[k].content| >= MinChunkSize)
    && (fixed ==> forall k :: 0 <= k < |cs| ==> Described(cs[k], levelOf, timeOf, format))
  }

  /** The chunks the loop and its last flush produce are well chunked. */
  lemma LogChunksSound(lines: seq<String>, levelOf: String -> String, timeOf: String -> int,
                       maxSize: int, format: String, fixed: bool, w: int)
    requires maxSize > 0 && forall k :: 0 <= k < |lines| ==> |lines[k]| < w
    ensures WellChunked(LogChunks(lines, levelOf, timeOf, maxSize, format, fixed), lines, levelOf, timeOf, maxSize, format, fixed, w)
  {
    var b := Run(lines, levelOf, timeOf, maxSize, format, fixed);
    hide Run;
    RunSound(lines, levelOf, timeOf, maxSize, format, fixed, w);
    FinalSound(b, lines, levelOf, timeOf, maxSize, format, fixed, w);
  }

  /** The last flush keeps the layout and adds what is left in `current`. */
  lemma FinalSound(b: Build, lines: seq<String>, levelOf: String -> String, timeOf: String -> int,
                   maxSize: int, format: String, fixed: bool, w: int)
    requires Laid(b, lines) && Sized(b, maxSize, w, format)
    requires fixed ==> Tallied(b, levelOf, timeOf, format)
    ensures WellChunked(Flush(b, format).done, lines, levelOf, timeOf, maxSize, format, fixed, w)
  {
    var cs := Flush(b, format).done;
    assert |b.cur| > 0 ==> cs[|cs| - 1].content == b.cur;
    FlushLaid(b, lines, format);
    FlushSized(b, format, maxSize, w);
    if fixed {
      FlushTallied(b, levelOf, timeOf, format);
    }
  }

  /**
   * `Chunk` (fixed): no chunks for empty content; otherwise the chunks of
   * its lines, whose texts are the content followed by one newline, with
   * every chunk's metadata the tally of its own lines.
   */
  lemma ChunkLogSound(content: String, format: String, levelOf: String -> String, timeOf: String -> int, maxSize: int, w: int)
    requires forall k :: 0 <= k < |Split(content, "\n")| ==> |Split(content, "\n")[k]| < w
    ensures var r := ChunkLog(content, format, levelOf, timeOf, maxSize);
      && (|content| == 0 ==> r == EmptyResult(Name))
      && r.totalChunks == |r.chunks| && r.originalSize == |content| && r.chunkerUsed == Name
      && Sequential(r.chunks) && Contiguous(r.chunks) && Widths(r.chunks)
      && (|content| > 0 ==> Texts(r.chunks) == content + "\n" && r.chunks[0].start == 0)
      && (forall k :: 0 <= k < |r.chunks| ==>
            && |r.chunks[k].content| > 0 && Fits(r.chunks[k].content, Limit(maxSize), w)
            && r.chunks[k].meta.chunkType == StructuredChunk && r.chunks[k].meta.format == format
            && Described(r.chunks[k], levelOf, timeOf, format))
      && (forall k :: 0 <= k < |r.chunks| - 1 ==> |r.chunks[k].content| >= MinChunkSize)
  {
    if |content| > 0 {
      LogChunksSound(Split(content, "\n"), levelOf, timeOf, Limit(maxSize), format, true, w);
      BlockSplit(content);
    }
  }

  // ---------------------------------------------------------------------
  // Where the error line is counted

  /** The state after the first of two lines, as either tally has it. */
  lemma FirstLine(a: String, e: String, levelOf: String -> String, timeOf: String -> int, format: String, fixed: bool)
    requires |a| >= MinChunkSize && levelOf(a) == "INFO" && timeOf(a) == 0
    ensures Run([a], levelOf, timeOf, 2 * |a|, format, fixed) == Build([], a + "\n", [a], Tally(["INFO"], 0, 0, 0), |a| + 1)
  {
    assert [a][..0] == [];
  }

  /** The error line after the first line, as written: its tally goes with the first line. */
  lemma ErrorStepAsWritten(a: String, e: String, format: String)
    requires |a| >= MinChunkSize
    ensures Step(Build([], a + "\n", [a], Tally(["INFO"], 0, 0, 0), |a| + 1), e, "ERROR", 0, 2 * |a|, format, false)
         == Build([Chunks.Chunk(0, a + "\n", 0, |a| + 1, MetaOf(Tally(["INFO", "ERROR"], 1, 0, 0), format))],
                  e + "\n", [e], Fresh, |a| + |e| + 2)
  {
    assert IsError("ERROR");
    assert ["INFO"] + ["ERROR"] == ["INFO", "ERROR"];
  }

  /** The error line after the first line, fixed: its tally goes with its own text. */
  lemma ErrorStepFixed(a: String, e: String, format: String)
    requires |a| >= MinChunkSize
    ensures Step(Build([], a + "\n", [a], Tally(["INFO"], 0, 0, 0), |a| + 1), e, "ERROR", 0, 2 * |a|, format, true)
         == Build([Chunks.Chunk(0, a + "\n", 0, |a| + 1, MetaOf(Tally(["INFO"], 0, 0, 0), format))],
                  e + "\n", [e], Tally(["ERROR"], 1, 0, 0), |a| + |e| + 2)
  {
    assert IsError("ERROR");
    assert [] + ["ERROR"] == ["ERROR"];
  }

  /**
   * A chunk of at least `MinChunkSize` bytes, over half of `maxSize`, is
   * followed by an error line: the error flush closes it and the error line
   * starts the next chunk. As written, the error line is counted in the
   * chunk closed before it, which reports one error, and the chunk holding
   * it reports none and level "INFO".
   */
  lemma ErrorCountedEarly(a: String, e: String, levelOf: String -> String, timeOf: String -> int, format: String)
    requires |a| >= MinChunkSize && levelOf(a) == "INFO" && levelOf(e) == "ERROR" && timeOf(a) == 0 && timeOf(e) == 0
    ensures var cs := LogChunks([a, e], levelOf, timeOf, 2 * |a|, format, false);
      && |cs| == 2 && cs[0].content == a + "\n" && cs[1].content == e + "\n"
      && cs[0].meta.errorCount == 1 && cs[1].meta.errorCount == 0 && cs[1].meta.level == "INFO"
  {
    assert [a, e][..1] == [a];
    FirstLine(a, e, levelOf, timeOf, format, false);
    ErrorStepAsWritten(a, e, format);
  }

  /** Counted with its own chunk, the error and the level "ERROR" go with the error line's text. */
  lemma ErrorCountedWithLine(a: String, e: String, levelOf: String -> String, timeOf: String -> int, format: String)
    requires |a| >= MinChunkSize && levelOf(a) == "INFO" && levelOf(e) == "ERROR" && timeOf(a) == 0 && timeOf(e) == 0
    ensures var cs := LogChunks([a, e], levelOf, timeOf, 2 * |a|, format, true);
      && |cs| == 2 && cs[0].content == a + "\n" && cs[1].content == e + "\n"
      && cs[0].meta.errorCount == 0 && cs[0].meta.level == "INFO"
      && cs[1].meta.errorCount == 1 && cs[1].meta.level == "ERROR"
  {
    var b1 := Run([a], levelOf, timeOf, 2 * |a|, format, true);
    assert [a, e][..1] == [a];
    assert Run([a, e], levelOf, timeOf, 2 * |a|, format, true) == Step(b1, e, "ERROR", 0, 2 * |a|, format, true);
    FirstLine(a, e, levelOf, timeOf, format, true);
    ErrorStepFixed(a, e, format);
    PredominantSingle("INFO");
    PredominantSingle("ERROR");
  }

  lemma PredominantSingle(l: String)
    ensures Predominant([l]) == l
  {
    var all := multiset([l]);
    assert [l][..0] == [];
    assert Best([], all) == ("INFO", 0);
    assert all[l] == 1;
    assert Best([l], all) == (l, 1);
  }

  /**
   * A line whose time lies before Go's zero time (a syslog time, which
   * `parseTimestamp` reads into year 0) starts the span, but as written it
   * never ends it, since only a time after the end so far, at first the
   * zero time, moves the end: the chunk's end stays the zero time instead of
   * the line's own time. Tracking the end from the first time on, the span
   * is that one time.
   */
  lemma EarlyTimeEnd(a: String, levelOf: String -> String, timeOf: String -> int, format: String)
    requires timeOf(a) < 0
    ensures var cs := LogChunks([a], levelOf, timeOf, 1, format, false);
      |cs| == 1 && cs[0].meta.timeStart == timeOf(a) && cs[0].meta.timeEnd == 0
    ensures var cs := LogChunks([a], levelOf, timeOf, 1, format, true);
      |cs| == 1 && cs[0].meta.timeStart == timeOf(a) && cs[0].meta.timeEnd == timeOf(a)
  {
    var t := timeOf(a);
    OneLineTally(a, levelOf, timeOf, format, false);
    OneLineTally(a, levelOf, timeOf, format, true);
    assert Count(Fresh, levelOf(a), t, false).start == t && Count(Fresh, levelOf(a), t, false).end == 0;
    assert Count(Fresh, levelOf(a), t, true).start == t && Count(Fresh, levelOf(a), t, true).end == t;
  }

  /** A single line is tallied the same way in both loops, and nothing is flushed before it. */
  lemma OneLineTally(a: String, levelOf: String -> String, timeOf: String -> int, format: String, fixed: bool)
    ensures var b := Run([a], levelOf, timeOf, 1, format, fixed);
      b.done == [] && b.cur == a + "\n" && b.tally == Count(Fresh, levelOf(a), timeOf(a), fixed)
  {
    assert [a][..0] == [];
  }

  // ---------------------------------------------------------------------
  // The loop

  /** `flushChunk`'s search for the predominant level, over the tallied levels. */
  method PickPredominant(levels: seq<String>) returns (level: String)
    ensures level == Predominant(levels)
  {
    var all := multiset(levels);
    level := "INFO";
    var maxCount := 0;
    for i := 0 to |levels|
      invariant (level, maxCount) == Best(levels[..i], all)
    {
      assert levels[..i + 1][..i] == levels[..i];
      if all[levels[i]] > maxCount {
        maxCount := all[levels[i]];
        level := levels[i];
      }
    }
    assert levels[..|levels|] == levels;
  }

  /** `flushChunk` on non-empty `current`: the chunk list with `current` closed as its next chunk. */
  method FlushChunk(chunks: seq<Chunk<Meta>>, current: String, ghost lines: seq<String>, tally: Tally, offset: int, format: String)
    returns (r: seq<Chunk<Meta>>)
    requires |current| > 0
    ensures r == Flush(Build(chunks, current, lines, tally, offset), format).done
  {
    var level := PickPredominant(tally.levels);
    var meta := Meta(StructuredChunk, tally.start, tally.end, level, format, tally.errors);
    r := chunks + [Chunks.Chunk(|chunks|, current, offset - |current|, offset, meta)];
  }

  /** One iteration of `Chunk`'s loop: the flush decision, then the line written and tallied. */
  method AddLine(chunks: seq<Chunk<Meta>>, current: String, ghost curLines: seq<String>, tally: Tally, offset: int,
                 line: String, level: String, time: int, maxSize: int, format: String)
    returns (chunks': seq<Chunk<Meta>>, current': String, ghost curLines': seq<String>, tally': Tally, offset': int)
    requires maxSize > 0
    ensures Build(chunks', current', curLines', tally', offset')
         == Step(Build(chunks, current, curLines, tally, offset), line, level, time, maxSize, format, true)
  {
    chunks', current', curLines', tally', offset' := chunks, current, curLines, tally, offset;
    var lineLen := |line| + 1;
    var shouldFlush := |current| + lineLen > maxSize && |current| >= MinChunkSize;
    if IsError(level) && |current| >= MinChunkSize && |current| > maxSize / 2 {
      chunks' := FlushChunk(chunks, current, curLines, tally, offset, format);
      current', curLines', tally' := [], [], Fresh;
      shouldFlush := false;
    }
    if shouldFlush {
      chunks' := FlushChunk(chunks, current, curLines, tally, offset, format);
      current', curLines', tally' := [], [], Fresh;
    }
    tally' := Count(tally', level, time, true);
    current' := current' + line + "\n";
    curLines' := curLines' + [line];
    offset' := offset' + lineLen;
  }

  lemma RunSnoc(lines: seq<String>, i: int, levelOf: String -> String, timeOf: String -> int, maxSize: int, format: String, fixed: bool)
    requires maxSize > 0 && 0 <= i < |lines|
    ensures Run(lines[..i + 1], levelOf, timeOf, maxSize, format, fixed)
         == Step(Run(lines[..i], levelOf, timeOf, maxSize, format, fixed), lines[i], levelOf(lines[i]), timeOf(lines[i]), maxSize, format, fixed)
  {
    assert lines[..i + 1][..i] == lines[..i];
  }

  /** `Chunk`, with each line tallied after the flush decision it may cause. */
  method Chunk(content: String, format: String, levelOf: String -> String, timeOf: String -> int, maxSize: int)
    returns (r: ChunkResult<Meta>)
    ensures r == ChunkLog(content, format, levelOf, timeOf, maxSize)
  {
    if |content| == 0 {
      return EmptyResult(Name);
    }
    var limit := Limit(maxSize);
    var lines := Split(content, "\n");
    var chunks: seq<Chunk<Meta>> := [];
    var current: String := [];
    ghost var curLines: seq<String> := [];
    var tally := Fresh;
    var offset := 0;
    assert Run(lines[..0], levelOf, timeOf, limit, format, true) == Build([], [], [], Fresh, 0);
    hide Run, Step;
    for i := 0 to |lines|
      invariant Build(chunks, current, curLines, tally, offset) == Run(lines[..i], levelOf, timeOf, limit, format, true)
    {
      RunSnoc(lines, i, levelOf, timeOf, limit, format, true);
      chunks, current, curLines, tally, offset :=
        AddLine(chunks, current, curLines, tally, offset, lines[i], levelOf(lines[i]), timeOf(lines[i]), limit, format);
    }
    if |current| > 0 {
      chunks := FlushChunk(chunks, current, curLines, tally, offset, format);
    }
    assert lines[..|lines|] == lines;
    r := ChunkResult(chunks, |chunks|, Name, |content|);
  }
}
