/**
 * The PDF chunker (internal/chunkers/pdf.go). Parsing the file, reading its
 * pages' content streams and the three heading patterns are inputs; the
 * model covers the text scanner of a content stream, heading detection
 * around the patterns, the heading-section builder and the chunking loop.
 */
module Pdf {
  import opened Text
  import opened Chunks
  import opened Wrappers
  import opened Packing
  import Outline

  const Name: String := "pdf"

  /** `CanHandle`. */
  predicate CanHandle(mimeType: String, language: String)
  {
    mimeType == "application/pdf" || HasSuffix(ToLower(language), ".pdf")
  }

  // ---------------------------------------------------------------------
  // strings.Fields and the space clean-up

  /** The length of the word at the start of `s`. */
  function WordLength(s: String): (n: nat)
    ensures n <= |s| && (n < |s| ==> IsSpace(s[n]))
    ensures forall i :: 0 <= i < n ==> !IsSpace(s[i])
  {
    if |s| == 0 || IsSpace(s[0]) then 0
    else
      var n := WordLength(s[1..]);
      assert forall i :: 1 <= i < n + 1 ==> s[i] == s[1..][i - 1];
      n + 1
  }

  predicate Word(w: String)
  {
    |w| > 0 && forall i :: 0 <= i < |w| ==> !IsSpace(w[i])
  }

  /** `strings.Fields`: the maximal runs of non-space characters. */
  function Words(s: String): (r: seq<String>)
    ensures forall w :: w in r ==> Word(w)
    decreases |s|
  {
    var t := TrimLeft(s);
    if t == [] then []
    else
      var n := WordLength(t);
      var w := t[..n];
      assert Word(w) by {
        assert n > 0;
        assert forall i :: 0 <= i < n ==> w[i] == t[i];
      }
      var rest := Words(t[n..]);
      [w] + rest
  }

  /** Text with no leading, trailing or doubled space, and no whitespace but single spaces. */
  predicate Clean(s: String)
  {
    && (|s| > 0 ==> !IsSpace(s[0]) && !IsSpace(s[|s| - 1]))
    && forall i :: 0 <= i < |s| && IsSpace(s[i]) ==> s[i] == ' ' && i + 1 < |s| && !IsSpace(s[i + 1])
  }

  lemma {:induction false} JoinWordsClean(ws: seq<String>)
    requires forall w :: w in ws ==> Word(w)
    ensures Clean(Join(ws, " "))
    decreases |ws|
  {
    if |ws| > 1 {
      var init := ws[..|ws| - 1];
      var last := ws[|ws| - 1];
      assert forall w :: w in init ==> w in ws;
      assert Word(init[0]) && Word(init[|init| - 1]);
      JoinWordsClean(init);
      var a := Join(init, " ");
      var j := a + " " + last;
      assert Word(last);
      forall i | 0 <= i < |j| && IsSpace(j[i]) ensures j[i] == ' ' && i + 1 < |j| && !IsSpace(j[i + 1]) {
        if i < |a| {
          assert j[i] == a[i];
          if i + 1 < |a| {
            assert j[i + 1] == a[i + 1];
          }
        }
      }
    } else if |ws| == 1 {
      assert Word(ws[0]);
    }
  }

  /** The `strings.Join(strings.Fields(result), " ")` clean-up leaves clean text. */
  lemma CleanUpIsClean(s: String)
    ensures Clean(Join(Words(s), " "))
  {
    JoinWordsClean(Words(s));
  }

  // ---------------------------------------------------------------------
  // extractTextFromContentStream

  /** The scanner's variables: parenthesis depth, the string being read, the text so far. */
  datatype Scan = Scan(depth: nat, cur: String, out: String)

  const Idle := Scan(0, [], [])

  /** The character before `i` is not a backslash. */
  predicate Unescaped(str: String, i: nat)
    requires i < |str|
  {
    i == 0 || str[i - 1] != '\\'
  }

  /**
   * One character of the scan: the new state and the next position. With
   * `fixed`, a parenthesis inside a string is always structural, since the
   * scanner consumes escaped parentheses itself; as written, any parenthesis
   * after a backslash is text, even when that backslash ended a `\\` escape.
   */
  function Step(str: String, i: nat, st: Scan, fixed: bool): (r: (Scan, nat))
    requires i < |str|
    ensures i < r.1 <= |str|
  {
    var ch := str[i];
    var free := Unescaped(str, i) || (fixed && st.depth > 0);
    if ch == '(' && free then
      (Scan(st.depth + 1, if st.depth == 0 then [] else st.cur, st.out), i + 1)
    else if ch == ')' && free then
      if st.depth == 1 then (Scan(0, st.cur, if |st.cur| > 0 then st.out + st.cur + " " else st.out), i + 1)
      else if st.depth > 1 then (st.(depth := st.depth - 1), i + 1)
      else (st, i + 1)
    else if st.depth > 0 then
      if ch == '\\' && i + 1 < |str| then
        var next := str[i + 1];
        if next == 'n' then (st.(cur := st.cur + "\n"), i + 2)
        else if next == 'r' then (st.(cur := st.cur + "\r"), i + 2)
        else if next == 't' then (st.(cur := st.cur + "\t"), i + 2)
        else if next == '(' || next == ')' || next == '\\' then (st.(cur := st.cur + [next]), i + 2)
        else (st.(cur := st.cur + [ch]), i + 1)
      else (st.(cur := st.cur + [ch]), i + 1)
    else (st, i + 1)
  }

  function Run(str: String, i: nat, st: Scan, fixed: bool): Scan
    requires i <= |str|
    decreases |str| - i
  {
    if i == |str| then st
    else
      var r := Step(str, i, st, fixed);
      Run(str, r.1, r.0, fixed)
  }

  /** `extractTextFromContentStream` as written. */
  function ExtractAsWritten(str: String): String
  {
    Join(Words(Run(str, 0, Idle, false).out), " ")
  }

  /** `extractTextFromContentStream` with escaped backslashes read as PDF defines them. */
  function Extract(str: String): String
  {
    Join(Words(Run(str, 0, Idle, true).out), " ")
  }

  /** The text has no leading, trailing or doubled spaces. */
  lemma ExtractClean(str: String)
    ensures Clean(Extract(str)) && Clean(ExtractAsWritten(str))
  {
    CleanUpIsClean(Run(str, 0, Idle, true).out);
    CleanUpIsClean(Run(str, 0, Idle, false).out);
  }

  lemma {:induction false} NoStringNoText(str: String, i: nat, st: Scan, fixed: bool)
    requires i <= |str| && st.depth == 0
    requires forall j :: i <= j < |str| ==> str[j] != '('
    ensures Run(str, i, st, fixed).out == st.out
    decreases |str| - i
  {
    if i < |str| {
      NoStringNoText(str, i + 1, st, fixed);
    }
  }

  /** A content stream without a literal string has no text. */
  lemma NoParenthesesNoText(str: String)
    requires forall j :: 0 <= j < |str| ==> str[j] != '('
    ensures Extract(str) == [] && ExtractAsWritten(str) == []
  {
    NoStringNoText(str, 0, Idle, true);
    NoStringNoText(str, 0, Idle, false);
  }

  lemma {:induction false} RunShift(p: String, s: String, i: nat, st: Scan, fixed: bool)
    requires i <= |s| && (|p| == 0 || p[|p| - 1] != '\\')
    ensures Run(p + s, |p| + i, st, fixed) == Run(s, i, st, fixed)
    decreases |s| - i
  {
    if i < |s| {
      var ps := p + s;
      assert ps[|p| + i] == s[i];
      assert Unescaped(ps, |p| + i) == Unescaped(s, i) by {
        if i > 0 {
          assert ps[|p| + i - 1] == s[i - 1];
        }
      }
      assert |p| + i + 1 < |ps| ==> ps[|p| + i + 1] == s[i + 1];
      var r := Step(s, i, st, fixed);
      assert Step(ps, |p| + i, st, fixed) == (r.0, |p| + r.1);
      RunShift(p, s, r.1, r.0, fixed);
    }
  }

  lemma {:induction false} IdleThrough(p: String, i: nat, fixed: bool)
    requires i <= |p| && forall j :: 0 <= j < |p| ==> p[j] != '(' && p[j] != ')'
    ensures Run(p, i, Idle, fixed) == Idle
    decreases |p| - i
  {
    if i < |p| {
      IdleThrough(p, i + 1, fixed);
    }
  }

  /**
   * Operators outside literal strings contribute nothing: text without
   * parentheses that does not end in a backslash can be dropped from the
   * front of a stream.
   */
  lemma OutsideIgnored(p: String, s: String)
    requires forall j :: 0 <= j < |p| ==> p[j] != '(' && p[j] != ')'
    requires |p| == 0 || p[|p| - 1] != '\\'
    ensures Extract(p + s) == Extract(s)
  {
    RunShift(p, s, 0, Idle, true);
    assert Run(p + s, |p|, Idle, true) == Run(s, 0, Idle, true);
    RunPrefix(p, s, true);
  }

  lemma RunPrefix(p: String, s: String, fixed: bool)
    requires forall j :: 0 <= j < |p| ==> p[j] != '(' && p[j] != ')'
    ensures Run(p + s, 0, Idle, fixed) == Run(p + s, |p|, Idle, fixed)
  {
    RunPrefixFrom(p, s, 0, fixed);
  }

  lemma {:induction false} RunPrefixFrom(p: String, s: String, i: nat, fixed: bool)
    requires i <= |p| && forall j :: 0 <= j < |p| ==> p[j] != '(' && p[j] != ')'
    ensures Run(p + s, i, Idle, fixed) == Run(p + s, |p|, Idle, fixed)
    decreases |p| - i
  {
    if i < |p| {
      assert (p + s)[i] == p[i];
      RunPrefixFrom(p, s, i + 1, fixed);
    }
  }

  /** An escaped parenthesis is text: `(x\)y)` reads as `x)y`. */
  lemma EscapedParenthesis()
    ensures Run("(x\\)y)", 0, Idle, true).out == "x)y "
  {
    var s := "(x\\)y)";
    assert s[0] == '(' && s[1] == 'x' && s[2] == '\\' && s[3] == ')' && s[4] == 'y' && s[5] == ')';
    assert [] + "x" == "x" && "x" + ")" == "x)" && "x)" + "y" == "x)y" && [] + "x)y" + " " == "x)y ";
    var s1 := Scan(1, [], []);
    assert Step(s, 0, Idle, true) == (s1, 1);
    var s2 := Scan(1, "x", []);
    assert Step(s, 1, s1, true) == (s2, 2);
    var s3 := Scan(1, "x)", []);
    assert Step(s, 2, s2, true) == (s3, 4);
    var s4 := Scan(1, "x)y", []);
    assert Step(s, 4, s3, true) == (s4, 5);
    assert Step(s, 5, s4, true) == (Scan(0, "x)y", "x)y "), 6);
  }

  /** The character an escape `\c` in a literal string stands for. */
  function Unescape(c: char): char
  {
    if c == 'n' then '\n' else if c == 'r' then '\r' else if c == 't' then '\t' else c
  }

  /**
   * `\n`, `\r`, `\t`, `\(`, `\)` and `\\` each decode to one character; as
   * written the same holds for all but `\\`.
   */
  lemma DecodesEscapes(c: char)
    requires c in "nrt()\\"
    ensures Run(['(', '\\', c, ')'], 0, Idle, true).out == [Unescape(c), ' ']
    ensures c != '\\' ==> Run(['(', '\\', c, ')'], 0, Idle, false).out == [Unescape(c), ' ']
  {
    var s := ['(', '\\', c, ')'];
    var s1 := Scan(1, [], []);
    var s2 := Scan(1, [Unescape(c)], []);
    var s3 := Scan(0, [Unescape(c)], [Unescape(c), ' ']);
    assert [] + [Unescape(c)] == [Unescape(c)];
    assert [] + [Unescape(c)] + " " == [Unescape(c), ' '];
    assert Step(s, 0, Idle, true) == (s1, 1);
    assert Step(s, 1, s1, true) == (s2, 3);
    assert Step(s, 3, s2, true) == (s3, 4);
    assert Run(s, 4, s3, true) == s3;
    assert Run(s, 3, s2, true) == s3;
    assert Run(s, 1, s1, true) == s3;
    assert Run(s, 0, Idle, true) == s3;
    if c != '\\' {
      assert Step(s, 0, Idle, false) == (s1, 1);
      assert Step(s, 1, s1, false) == (s2, 3);
      assert Step(s, 3, s2, false) == (s3, 4);
      assert Run(s, 4, s3, false) == s3;
      assert Run(s, 3, s2, false) == s3;
      assert Run(s, 1, s1, false) == s3;
      assert Run(s, 0, Idle, false) == s3;
    }
  }

  /**
   * As written, the string `(a\\)` never closes: its `)` follows the second
   * backslash of the `\\` escape and is taken as text, so the string is lost.
   */
  lemma AsWrittenLosesString()
    ensures Run("(a\\\\)", 0, Idle, false) == Scan(1, "a\\)", [])
    ensures Run("(a\\\\)", 0, Idle, true) == Scan(0, "a\\", "a\\ ")
  {
    var s := "(a\\\\)";
    assert s[0] == '(' && s[1] == 'a' && s[2] == '\\' && s[3] == '\\' && s[4] == ')';
    var s1 := Scan(1, [], []);
    var s2 := Scan(1, "a", []);
    var s3 := Scan(1, "a\\", []);
    assert [] + "a" == "a" && "a" + "\\" == "a\\" && "a\\" + ")" == "a\\)" && [] + "a\\" + " " == "a\\ ";
    assert Step(s, 0, Idle, false) == (s1, 1) && Step(s, 0, Idle, true) == (s1, 1);
    assert Step(s, 1, s1, false) == (s2, 2) && Step(s, 1, s1, true) == (s2, 2);
    assert Step(s, 2, s2, false) == (s3, 4) && Step(s, 2, s2, true) == (s3, 4);
    assert Step(s, 4, s3, false) == (Scan(1, "a\\)", []), 5);
    assert Step(s, 4, s3, true) == (Scan(0, "a\\", "a\\ "), 5);
  }

  /** The scanning loop of `extractTextFromContentStream`. */
  method ExtractText(str: String) returns (text: String)
    ensures text == Extract(str)
  {
    var depth: nat := 0;
    var cur: String := [];
    var out: String := [];
    var i := 0;
    while i < |str|
      invariant i <= |str|
      invariant Run(str, i, Scan(depth, cur, out), true) == Run(str, 0, Idle, true)
      decreases |str| - i
    {
      var ch := str[i];
      var free := i == 0 || str[i - 1] != '\\' || depth > 0;
      if ch == '(' && free {
        if depth == 0 {
          cur := [];
        }
        depth := depth + 1;
        i := i + 1;
      } else if ch == ')' && free {
        if depth > 0 {
          depth := depth - 1;
          if depth == 0 && |cur| > 0 {
            out := out + cur + " ";
          }
        }
        i := i + 1;
      } else if depth > 0 {
        if ch == '\\' && i + 1 < |str| {
          var next := str[i + 1];
          if next == 'n' {
            cur := cur + "\n";
            i := i + 2;
          } else if next == 'r' {
            cur := cur + "\r";
            i := i + 2;
          } else if next == 't' {
            cur := cur + "\t";
            i := i + 2;
          } else if next == '(' || next == ')' || next == '\\' {
            cur := cur + [next];
            i := i + 2;
          } else {
            cur := cur + [ch];
            i := i + 1;
          }
        } else {
          cur := cur + [ch];
          i := i + 1;
        }
      } else {
        i := i + 1;
      }
    }
    text := Join(Words(out), " ");
  }

  // ---------------------------------------------------------------------
  // extractPages and detectQuality

  /** `pdfPage`. */
  datatype Page = Page(number: int, text: String)

  /**
   * `extractPages`: page `i` (from 1) holds the text of its content stream,
   * or nothing when the stream could not be read (`None`).
   */
  function Pages(streams: seq<Option<String>>): (r: seq<Page>)
    ensures |r| == |streams|
    ensures forall i :: 0 <= i < |r| ==> r[i].number == i + 1
    ensures forall i :: 0 <= i < |r| ==> r[i].text == (if streams[i].Some? then Extract(streams[i].value) else [])
  {
    seq(|streams|, i requires 0 <= i < |streams| => Page(i + 1, if streams[i].Some? then Extract(streams[i].value) else []))
  }

  /** The page loop of `extractPages`. */
  method ExtractPages(streams: seq<Option<String>>) returns (pages: seq<Page>)
    ensures pages == Pages(streams)
  {
    pages := [];
    for i := 0 to |streams|
      invariant |pages| == i && forall k :: 0 <= k < i ==> pages[k] == Pages(streams)[k]
    {
      var text: String := [];
      if streams[i].Some? {
        text := ExtractText(streams[i].value);
      }
      pages := pages + [Page(i + 1, text)];
    }
  }

  /** `detectQuality`: "medium" when the document has font objects or more than 100 cross-reference entries. */
  function Quality(fonts: nat, xrefEntries: nat): String
  {
    if fonts > 0 || xrefEntries > 100 then "medium" else "low"
  }

  // ---------------------------------------------------------------------
  // detectHeading

  /** The three heading patterns, as matchers. */
  datatype Patterns = Patterns(numeric: String -> bool, title: String -> bool, upper: String -> bool)

  /** `strings.SplitN(s, " ", 2)[0]`: `s` up to its first space. */
  function FirstField(s: String): (r: String)
    ensures |r| <= |s| && r == s[..|r|] && forall i :: 0 <= i < |r| ==> r[i] != ' '
  {
    var i := IndexFrom(s, " ", 0);
    var r := if i == -1 then s else s[..i];
    forall j | 0 <= j < |r| ensures r[j] != ' ' {
      assert r[j] == s[j] && s[j..j + 1] == [s[j]];
      assert !OccursAt(s, " ", j);
    }
    r
  }

  /** `strings.TrimRight(s, ".")`. */
  function TrimDots(s: String): (r: String)
    ensures |r| <= |s| && r == s[..|r|] && (r == [] || r[|r| - 1] != '.')
    ensures forall i :: |r| <= i < |s| ==> s[i] == '.'
  {
    s[..KeptIn(s, c => c == '.')]
  }

  /** The level of a numbered heading: the number of dot-separated segments of its first word. */
  function NumberLevel(line: String): (n: int)
    ensures n >= 1
  {
    |Split(TrimDots(FirstField(line)), ".")|
  }

  /** `detectHeading`: whether a line is a heading, and its level. */
  function DetectHeading(line: String, rx: Patterns): (r: (bool, int))
    ensures r.0 ==> r.1 >= 1
    ensures !r.0 ==> r.1 == 0
  {
    var t := TrimSpace(line);
    if |t| < 3 || |t| > 200 then (false, 0)
    else if rx.numeric(t) then (true, NumberLevel(t))
    else if rx.title(t) then (true, 1)
    else if |t| < 80 && rx.upper(t) then (true, 1)
    else (false, 0)
  }

  /**
   * A line is a heading exactly when its trimmed length is between 3 and 200
   * and it is numbered, a chapter-like title, or an upper-case line shorter
   * than 80; only numbered headings go below level 1.
   */
  lemma DetectHeadingCases(line: String, rx: Patterns)
    ensures var t := TrimSpace(line);
      && (DetectHeading(line, rx).0 <==> 3 <= |t| <= 200 && (rx.numeric(t) || rx.title(t) || (|t| < 80 && rx.upper(t))))
      && (DetectHeading(line, rx).1 > 1 ==> rx.numeric(t) && DetectHeading(line, rx).1 == NumberLevel(t))
  {
  }

  predicate Free(s: String, c: char)
  {
    forall i :: 0 <= i < |s| ==> s[i] != c
  }

  lemma FirstFieldOf(w: String, rest: String)
    requires Free(w, ' ')
    ensures FirstField(w + " " + rest) == w
  {
    var s := w + " " + rest;
    assert OccursAt(s, " ", |w|);
    forall j | 0 <= j < |w| ensures !OccursAt(s, " ", j) {
      assert s[j..j + 1] == [w[j]];
    }
  }

  lemma SplitNoDot(s: String)
    requires Free(s, '.')
    ensures Split(s, ".") == [s]
  {
    forall j | 0 <= j <= |s| - 1 ensures !OccursAt(s, ".", j) {
      assert s[j..j + 1] == [s[j]];
    }
    assert IndexFrom(s, ".", 0) == -1;
  }

  lemma SplitDot(a: String, b: String)
    requires Free(a, '.')
    ensures Split(a + "." + b, ".") == [a] + Split(b, ".")
  {
    var s := a + "." + b;
    assert OccursAt(s, ".", |a|);
    forall j | 0 <= j < |a| ensures !OccursAt(s, ".", j) {
      assert s[j..j + 1] == [a[j]];
    }
    assert s[..|a|] == a && s[|a| + 1..] == b;
  }

  /** The level counts the number's segments: "1. Intro" is level 1. */
  lemma NumberLevelOne()
    ensures NumberLevel("1. Intro") == 1
  {
    hide Split;
    assert "1. Intro" == "1." + " " + "Intro";
    FirstFieldOf("1.", "Intro");
    assert TrimDots("1.") == "1";
    SplitNoDot("1");
  }

  /** "1.2 Bg" is level 2. */
  lemma NumberLevelTwo()
    ensures NumberLevel("1.2 Bg") == 2
  {
    hide Split;
    assert "1.2 Bg" == "1.2" + " " + "Bg";
    FirstFieldOf("1.2", "Bg");
    assert TrimDots("1.2") == "1.2";
    assert "1.2" == "1" + "." + "2";
    SplitDot("1", "2");
    SplitNoDot("2");
  }

  /** "1.2.3 Details" is level 3. */
  lemma NumberLevelThree()
    ensures NumberLevel("1.2.3 Details") == 3
  {
    hide Split;
    assert "1.2.3 Details" == "1.2.3" + " " + "Details";
    FirstFieldOf("1.2.3", "Details");
    assert TrimDots("1.2.3") == "1.2.3";
    assert "1.2.3" == "1" + "." + "2.3";
    SplitDot("1", "2.3");
    assert "2.3" == "2" + "." + "3";
    SplitDot("2", "3");
    SplitNoDot("3");
  }

  // ---------------------------------------------------------------------
  // buildSections

  /** A non-blank line of a page, trimmed, with the page's number. */
  datatype Entry = Entry(line: String, page: int)

  /** A trimmed, non-empty line. */
  predicate Trimmed(line: String)
  {
    |line| > 0 && !IsSpace(line[0])
  }

  /** The lines of a page that `buildSections` reads: its trimmed text split at newlines, each line trimmed, blank ones skipped. */
  function PageLines(p: Page): seq<String>
  {
    Kept(Split(TrimSpace(p.text), "\n"))
  }

  lemma {:induction false} KeptTrimmed(parts: seq<String>)
    ensures forall k :: 0 <= k < |Kept(parts)| ==> Trimmed(Kept(parts)[k])
    decreases |parts|
  {
    if |parts| > 0 {
      KeptSnoc(parts);
      KeptTrimmed(parts[..|parts| - 1]);
    }
  }

  function PageEntries(p: Page): (r: seq<Entry>)
    ensures |r| == |PageLines(p)| && forall k :: 0 <= k < |r| ==> r[k] == Entry(PageLines(p)[k], p.number)
  {
    var ls := PageLines(p);
    seq(|ls|, k requires 0 <= k < |ls| => Entry(ls[k], p.number))
  }

  /** The lines of all pages, in order. */
  function Entries(pages: seq<Page>): seq<Entry>
  {
    if |pages| == 0 then [] else Entries(pages[..|pages| - 1]) + PageEntries(pages[|pages| - 1])
  }

  /** `pdfSection`. */
  datatype Section = Section(heading: String, level: int, text: String, path: String, page: int, start: int, end: int)

  /** The open section, before its end is known. */
  datatype Open = Open(heading: String, level: int, text: String, path: String, page: int, start: int)

  /** The variables of `buildSections`: the sections so far, the open section, the heading stack, the offset. */
  datatype Builder = Builder(sections: seq<Section>, cur: Option<Open>, stack: seq<String>, offset: int)

  const Root := Builder([], None, [], 0)

  /** Save the open section, ending at the current offset, if its text is not blank. */
  function Save(b: Builder): seq<Section>
  {
    if b.cur.Some? && TrimSpace(b.cur.value.text) != [] then
      var o := b.cur.value;
      b.sections + [Section(o.heading, o.level, o.text, o.path, o.page, o.start, b.offset)]
    else b.sections
  }

  /** One line: a heading saves the open section and opens its own; other text joins the open section, opened at need. */
  function Add(b: Builder, e: Entry, rx: Patterns): Builder
  {
    var (isHeading, level) := DetectHeading(e.line, rx);
    if isHeading then
      var stack := Outline.Popped(b.stack, level) + [e.line];
      Builder(Save(b), Some(Open(e.line, level, e.line + "\n\n", Join(stack, " > "), e.page, b.offset)), stack, b.offset + |e.line| + 2)
    else
      var o := if b.cur.None? then Open([], 0, [], [], e.page, b.offset) else b.cur.value;
      b.(cur := Some(o.(text := o.text + e.line + "\n")), offset := b.offset + |e.line| + 1)
  }

  function Build(entries: seq<Entry>, rx: Patterns): Builder
  {
    if |entries| == 0 then Root else Add(Build(entries[..|entries| - 1], rx), entries[|entries| - 1], rx)
  }

  /** All pages' text, each non-blank page followed by a blank line: the fallback of `buildSections`. */
  function AllText(pages: seq<Page>): String
  {
    if |pages| == 0 then []
    else
      var p := pages[|pages| - 1];
      AllText(pages[..|pages| - 1]) + (if TrimSpace(p.text) != [] then p.text + "\n\n" else [])
  }

  /** When no section was built, one section of all the text, if any. */
  function Fallback(pages: seq<Page>, sections: seq<Section>): seq<Section>
  {
    if |sections| == 0 && |pages| > 0 then
      var text := TrimSpace(AllText(pages));
      if text != [] then [Section([], 0, text, [], pages[0].number, 0, |text|)] else []
    else sections
  }

  /** `buildSections`. */
  function SectionsOf(pages: seq<Page>, rx: Patterns): seq<Section>
  {
    Fallback(pages, Save(Build(Entries(pages), rx)))
  }

  // The fallback never adds a section

  lemma {:induction false} EntriesTrimmed(pages: seq<Page>)
    ensures forall k :: 0 <= k < |Entries(pages)| ==> Trimmed(Entries(pages)[k].line)
    decreases |pages|
  {
    if |pages| > 0 {
      var p := pages[|pages| - 1];
      EntriesTrimmed(pages[..|pages| - 1]);
      KeptTrimmed(Split(TrimSpace(p.text), "\n"));
    }
  }

  /** Once a line has been read, the open section holds non-blank text. */
  lemma AddOpens(b: Builder, e: Entry, rx: Patterns)
    requires Trimmed(e.line)
    ensures Add(b, e, rx).cur.Some? && TrimSpace(Add(b, e, rx).cur.value.text) != []
  {
    var b' := Add(b, e, rx);
    var text := b'.cur.value.text;
    if !DetectHeading(e.line, rx).0 {
      var o := if b.cur.None? then Open([], 0, [], [], e.page, b.offset) else b.cur.value;
      assert text[|o.text|] == e.line[0];
    } else {
      assert text[0] == e.line[0];
    }
  }

  lemma {:induction false} EntriesEmpty(pages: seq<Page>)
    requires Entries(pages) == []
    ensures AllText(pages) == []
    decreases |pages|
  {
    if |pages| > 0 {
      var p := pages[|pages| - 1];
      EntriesEmpty(pages[..|pages| - 1]);
      var parts := Split(TrimSpace(p.text), "\n");
      Outline.KeptEmpty(parts);
      Outline.JoinBlank(parts, "\n");
      JoinSplit(TrimSpace(p.text), "\n");
    }
  }

  /**
   * The fallback of `buildSections` never adds a section: every non-blank
   * page has a non-blank line, and that line leaves a non-blank open section.
   */
  lemma FallbackUnreachable(pages: seq<Page>, rx: Patterns)
    ensures SectionsOf(pages, rx) == Save(Build(Entries(pages), rx))
  {
    var es := Entries(pages);
    if |es| > 0 {
      EntriesTrimmed(pages);
      AddOpens(Build(es[..|es| - 1], rx), es[|es| - 1], rx);
    } else {
      EntriesEmpty(pages);
    }
  }

  // The sections' offsets

  /** The text a line adds to the offsets: a heading and a blank line, or the line and a newline. */
  function EntryText(e: Entry, rx: Patterns): String
  {
    if DetectHeading(e.line, rx).0 then e.line + "\n\n" else e.line + "\n"
  }

  /** The document as `buildSections` counts it. */
  function Flat(entries: seq<Entry>, rx: Patterns): String
  {
    if |entries| == 0 then [] else Flat(entries[..|entries| - 1], rx) + EntryText(entries[|entries| - 1], rx)
  }

  /** A section holds non-blank text, found at its offsets in `flat`. */
  predicate SectionAt(s: Section, flat: String)
  {
    TrimSpace(s.text) != [] && 0 <= s.start <= s.end <= |flat| && flat[s.start..s.end] == s.text
  }

  /** The sections are non-blank, sit at their offsets in `flat`, in order, before `bound`. */
  predicate Laid(sections: seq<Section>, flat: String, bound: int)
  {
    && (forall k :: 0 <= k < |sections| ==> SectionAt(sections[k], flat) && sections[k].end <= bound)
    && (forall k :: 0 < k < |sections| ==> sections[k - 1].end <= sections[k].start)
  }

  /** The open section is the tail of the document read so far. */
  predicate Tracks(b: Builder, flat: String)
  {
    && b.offset == |flat|
    && (b.cur.None? ==> b.sections == [] && flat == [])
    && (b.cur.Some? ==> 0 <= b.cur.value.start <= |flat| && flat[b.cur.value.start..] == b.cur.value.text)
    && Laid(b.sections, flat, if b.cur.Some? then b.cur.value.start else b.offset)
  }

  lemma LaidGrows(sections: seq<Section>, flat: String, more: String, bound: int)
    requires Laid(sections, flat, bound)
    ensures Laid(sections, flat + more, bound)
  {
    hide TrimSpace;
    forall k | 0 <= k < |sections| ensures SectionAt(sections[k], flat + more) {
      assert SectionAt(sections[k], flat);
      SliceOfPrefix(flat, more, sections[k].start, sections[k].end);
    }
  }

  lemma SaveLaid(b: Builder, flat: String)
    requires Tracks(b, flat)
    ensures Laid(Save(b), flat, b.offset)
  {
    hide TrimSpace;
    if b.cur.Some? && TrimSpace(b.cur.value.text) != [] {
      var o := b.cur.value;
      var s := Section(o.heading, o.level, o.text, o.path, o.page, o.start, b.offset);
      assert flat[o.start..b.offset] == o.text;
      assert SectionAt(s, flat);
      var ss := b.sections + [s];
      forall k | 0 < k < |ss| ensures ss[k - 1].end <= ss[k].start {
      }
    }
  }

  lemma AddTracks(b: Builder, e: Entry, rx: Patterns, flat: String)
    requires Tracks(b, flat)
    ensures Tracks(Add(b, e, rx), flat + EntryText(e, rx))
  {
    hide TrimSpace, DetectHeading, Save, Outline.Popped, Join;
    var more := EntryText(e, rx);
    var flat' := flat + more;
    if DetectHeading(e.line, rx).0 {
      SaveLaid(b, flat);
      LaidGrows(Save(b), flat, more, b.offset);
      assert flat'[b.offset..] == more;
    } else if b.cur.None? {
      assert flat'[b.offset..] == more;
    } else {
      LaidGrows(b.sections, flat, more, b.cur.value.start);
      assert flat'[b.cur.value.start..] == flat[b.cur.value.start..] + more;
    }
  }

  lemma {:induction false} BuildTracks(entries: seq<Entry>, rx: Patterns)
    ensures Tracks(Build(entries, rx), Flat(entries, rx))
    decreases |entries|
  {
    if |entries| > 0 {
      var init := entries[..|entries| - 1];
      BuildTracks(init, rx);
      AddTracks(Build(init, rx), entries[|entries| - 1], rx, Flat(init, rx));
    }
  }

  /**
   * Every section holds non-blank text, which is the document's text between
   * its offsets (a heading adding its length plus 2, another line its length
   * plus 1), and the sections come in order without overlap.
   */
  lemma SectionsLaid(pages: seq<Page>, rx: Patterns)
    ensures var flat := Flat(Entries(pages), rx);
      Laid(SectionsOf(pages, rx), flat, |flat|)
  {
    var es := Entries(pages);
    BuildTracks(es, rx);
    SaveLaid(Build(es, rx), Flat(es, rx));
    FallbackUnreachable(pages, rx);
  }

  // The heading path

  /** A section outside any heading has no heading or path; a heading's path ends with its own title. */
  predicate Headed(heading: String, level: int, path: String)
  {
    || (level == 0 && heading == [] && path == [])
    || (level >= 1 && HasSuffix(path, heading))
  }

  /**
   * The heading stack is empty before the first heading, no deeper than the
   * open section's level, and the path is the stack joined with " > ".
   */
  predicate Stacked(b: Builder)
  {
    && (b.cur.None? ==> b.stack == [])
    && (b.cur.Some? ==> |b.stack| <= b.cur.value.level && b.cur.value.path == Join(b.stack, " > ")
                        && Headed(b.cur.value.heading, b.cur.value.level, b.cur.value.path))
    && forall s :: s in b.sections ==> Headed(s.heading, s.level, s.path)
  }

  lemma JoinEndsWith(parts: seq<String>, sep: String)
    requires |parts| > 0
    ensures HasSuffix(Join(parts, sep), parts[|parts| - 1])
  {
  }

  lemma SaveHeaded(b: Builder)
    requires Stacked(b)
    ensures forall s :: s in Save(b) ==> Headed(s.heading, s.level, s.path)
  {
  }

  lemma AddStacked(b: Builder, e: Entry, rx: Patterns)
    requires Stacked(b)
    ensures Stacked(Add(b, e, rx))
  {
    hide TrimSpace, Outline.Popped, DetectHeading;
    var (isHeading, level) := DetectHeading(e.line, rx);
    if isHeading {
      Outline.PoppedPrefix(b.stack, level);
      var stack := Outline.Popped(b.stack, level) + [e.line];
      JoinEndsWith(stack, " > ");
      SaveHeaded(b);
      hide Join, Save;
      var b' := Add(b, e, rx);
      assert b' == Builder(Save(b), Some(Open(e.line, level, e.line + "\n\n", Join(stack, " > "), e.page, b.offset)), stack, b.offset + |e.line| + 2);
    } else {
      var b' := Add(b, e, rx);
      assert b'.stack == b.stack;
    }
  }

  lemma {:induction false} BuildStacked(entries: seq<Entry>, rx: Patterns)
    ensures Stacked(Build(entries, rx))
    decreases |entries|
  {
    if |entries| > 0 {
      BuildStacked(entries[..|entries| - 1], rx);
      AddStacked(Build(entries[..|entries| - 1], rx), entries[|entries| - 1], rx);
    }
  }

  /**
   * Text before the first heading forms a section with no heading, level or
   * path; every other section's path ends with its own heading.
   */
  lemma SectionsHeaded(pages: seq<Page>, rx: Patterns)
    ensures forall s :: s in SectionsOf(pages, rx) ==> Headed(s.heading, s.level, s.path)
  {
    BuildStacked(Entries(pages), rx);
    FallbackUnreachable(pages, rx);
    hide SectionsOf, Save, Build, Fallback, TrimSpace;
    SaveHeaded(Build(Entries(pages), rx));
  }

  /**
   * A heading line saves the open section if it is not blank and opens a
   * section at the current offset; the stack keeps the titles above the
   * heading's level and ends with its title.
   */
  lemma HeadingOpens(b: Builder, e: Entry, rx: Patterns)
    requires DetectHeading(e.line, rx).0
    ensures var b' := Add(b, e, rx);
      var level := DetectHeading(e.line, rx).1;
      var n := |b'.stack|;
      && b'.sections == Save(b)
      && b'.cur == Some(Open(e.line, level, e.line + "\n\n", Join(b'.stack, " > "), e.page, b.offset))
      && 0 < n <= level && b'.stack[n - 1] == e.line && b'.stack[..n - 1] == b.stack[..n - 1]
      && (|b.stack| >= level - 1 ==> n == level)
  {
    var level := DetectHeading(e.line, rx).1;
    Outline.PoppedPrefix(b.stack, level);
    var p := Outline.Popped(b.stack, level);
    assert (p + [e.line])[..|p|] == p;
  }

  // The loops of `buildSections`

  /** One line of the loop of `buildSections`. */
  method AddEntry(b: Builder, e: Entry, rx: Patterns) returns (b': Builder)
    ensures b' == Add(b, e, rx)
  {
    hide TrimSpace, Outline.Popped, Join, DetectHeading;
    var (isHeading, level) := DetectHeading(e.line, rx);
    if isHeading {
      b' := b.(sections := Save(b));
      var stack := Outline.PopHeadings(b.stack, level);
      stack := stack + [e.line];
      b' := Builder(b'.sections, Some(Open(e.line, level, e.line + "\n\n", Join(stack, " > "), e.page, b.offset)), stack, b.offset + |e.line| + 2);
    } else {
      var o := if b.cur.None? then Open([], 0, [], [], e.page, b.offset) else b.cur.value;
      b' := b.(cur := Some(o.(text := o.text + e.line + "\n")), offset := b.offset + |e.line| + 1);
    }
  }

  /** Trimming a prefix of the parts keeps a prefix of what trimming all of them keeps. */
  lemma {:induction false} KeptGrows(parts: seq<String>, i: nat)
    requires i <= |parts|
    ensures Kept(parts[..i]) <= Kept(parts)
    decreases |parts|
  {
    if i < |parts| {
      var init := parts[..|parts| - 1];
      KeptGrows(init, i);
      assert init[..i] == parts[..i];
      KeptSnoc(parts);
    } else {
      assert parts[..i] == parts;
    }
  }

  lemma EntriesSnoc(pages: seq<Page>, i: int)
    requires 0 <= i < |pages|
    ensures Entries(pages[..i + 1]) == Entries(pages[..i]) + PageEntries(pages[i])
  {
    assert pages[..i + 1][..i] == pages[..i];
  }

  lemma BuildSnoc(entries: seq<Entry>, e: Entry, rx: Patterns)
    ensures Build(entries + [e], rx) == Add(Build(entries, rx), e, rx)
  {
    assert (entries + [e])[..|entries|] == entries;
  }

  /** A non-blank line of a page is the page's next entry. */
  lemma PageLineStep(done: seq<Entry>, p: Page, lines: seq<String>, k: nat, j: nat, rx: Patterns)
    requires lines == Split(TrimSpace(p.text), "\n") && k < |lines| && j == |Kept(lines[..k])|
    ensures var line := TrimSpace(lines[k]);
      && (line == [] ==> Kept(lines[..k + 1]) == Kept(lines[..k]))
      && (line != [] ==>
            Kept(lines[..k + 1]) == Kept(lines[..k]) + [line] && j < |PageEntries(p)| && Add(Build(done + PageEntries(p)[..j], rx), Entry(line, p.number), rx) == Build(done + PageEntries(p)[..j + 1], rx))
  {
    hide Build, Add, Split, TrimSpace;
    var line := TrimSpace(lines[k]);
    KeptPrefix(lines, k, line);
    if line != [] {
      hide Kept;
      var es := PageEntries(p);
      KeptGrows(lines, k + 1);
      assert lines[..|lines|] == lines;
      assert es[j] == Entry(line, p.number);
      BuildSnoc(done + es[..j], Entry(line, p.number), rx);
      assert es[..j + 1] == es[..j] + [es[j]];
      assert done + es[..j + 1] == (done + es[..j]) + [Entry(line, p.number)];
    }
  }

  lemma KeptNone(parts: seq<String>)
    ensures Kept(parts[..0]) == []
  {
    assert parts[..0] == [];
  }

  /** The lines of one page, read into the builder. */
  method AddPage(b: Builder, done: seq<Entry>, p: Page, rx: Patterns) returns (b': Builder)
    requires b == Build(done, rx)
    ensures b' == Build(done + PageEntries(p), rx)
  {
    hide Add, Build, PageEntries, Kept, Split, TrimSpace;
    var pageText := TrimSpace(p.text);
    var lines := Split(pageText, "\n");
    KeptNone(lines);
    b' := b;
    ghost var j := 0;
    assert done + PageEntries(p)[..0] == done;
    for k := 0 to |lines|
      invariant j == |Kept(lines[..k])| && j <= |PageEntries(p)|
      invariant b' == Build(done + PageEntries(p)[..j], rx)
    {
      var line := TrimSpace(lines[k]);
      PageLineStep(done, p, lines, k, j, rx);
      if line != [] {
        b' := AddEntry(b', Entry(line, p.number), rx);
        j := j + 1;
      }
    }
    assert lines[..|lines|] == lines;
    assert PageEntries(p)[..j] == PageEntries(p);
  }

  lemma BlankPage(p: Page)
    requires TrimSpace(p.text) == []
    ensures PageEntries(p) == []
  {
    assert IndexFrom([], "\n", 0) == -1;
    assert Split([], "\n") == [[]];
    var parts: seq<String> := [[]];
    assert parts[..0] == [];
    assert Kept(parts) == [];
  }

  /** The page loop of `buildSections`. */
  method ReadPages(pages: seq<Page>, rx: Patterns) returns (b: Builder)
    ensures b == Build(Entries(pages), rx)
  {
    b := Root;
    assert b == Build(Entries(pages[..0]), rx);
    hide Build, PageEntries;
    for i := 0 to |pages|
      invariant b == Build(Entries(pages[..i]), rx)
    {
      EntriesSnoc(pages, i);
      if TrimSpace(pages[i].text) != [] {
        b := AddPage(b, Entries(pages[..i]), pages[i], rx);
      } else {
        BlankPage(pages[i]);
        assert Entries(pages[..i]) + PageEntries(pages[i]) == Entries(pages[..i]);
      }
    }
    assert pages[..|pages|] == pages;
  }

  /** The text of the fallback of `buildSections`. */
  method JoinPages(pages: seq<Page>) returns (all: String)
    ensures all == AllText(pages)
  {
    hide TrimSpace;
    all := [];
    for i := 0 to |pages|
      invariant all == AllText(pages[..i])
    {
      assert pages[..i + 1][..i] == pages[..i];
      if TrimSpace(pages[i].text) != [] {
        all := all + pages[i].text + "\n\n";
      }
    }
    assert pages[..|pages|] == pages;
  }

  /** `buildSections`. */
  method BuildSections(pages: seq<Page>, rx: Patterns) returns (sections: seq<Section>)
    ensures sections == SectionsOf(pages, rx)
  {
    hide Build, Entries, AllText;
    var b := ReadPages(pages, rx);
    sections := Save(b);
    if |sections| == 0 && |pages| > 0 {
      var all := JoinPages(pages);
      var text := TrimSpace(all);
      if text != [] {
        sections := sections + [Section([], 0, text, [], pages[0].number, 0, |text|)];
      }
    }
  }

  // ---------------------------------------------------------------------
  // Chunk and splitLargeSection

  /** `DocumentMetadata` of a PDF chunk. */
  datatype Meta = Meta(heading: String, level: int, path: String, page: int, pageCount: int, quality: String)

  /** The paragraphs `splitLargeSection` packs: the text split at blank lines, or at newlines when it has no blank line. */
  function PiecesOf(text: String): seq<String>
  {
    var ps := Split(text, "\n\n");
    if |ps| == 1 then Split(text, "\n") else ps
  }

  function PartOf(s: Section, pageCount: int, quality: String): Outline.Part<Meta>
  {
    Outline.Part(s.text, PiecesOf(s.text), s.start, s.end, Meta(s.heading, s.level, s.path, s.page, pageCount, quality))
  }

  function Parts(sections: seq<Section>, pageCount: int, quality: String): (r: seq<Outline.Part<Meta>>)
    ensures |r| == |sections| && forall k :: 0 <= k < |r| ==> r[k] == PartOf(sections[k], pageCount, quality)
  {
    seq(|sections|, k requires 0 <= k < |sections| => PartOf(sections[k], pageCount, quality))
  }

  /** What the PDF library yields: each page's content stream (`None` when unreadable), the font objects, the cross-reference entries. */
  datatype Parsed = Parsed(streams: seq<Option<String>>, fonts: nat, xrefEntries: nat)

  /** The sections of a parsed document. */
  function DocSections(d: Parsed, rx: Patterns): seq<Section>
  {
    SectionsOf(Pages(d.streams), rx)
  }

  /**
   * `Chunk`. `size` is the length of the file; `parsed` is what the PDF
   * library reads from it, `None` when it cannot parse the file.
   */
  function ChunkPdf(size: nat, maxSize: int, parsed: Option<Parsed>, rx: Patterns): Result<ChunkResult<Meta>>
  {
    if size == 0 then Ok(EmptyResult(Name))
    else if parsed.None? then Err("failed to read PDF")
    else
      var d := parsed.value;
      var parts := Parts(DocSections(d, rx), |d.streams|, Quality(d.fonts, d.xrefEntries));
      var chunks := Outline.ChunkParts(parts, Limit(maxSize));
      Ok(ChunkResult(chunks, |chunks|, Name, size))
  }

  /** All parts carry the document's page count and quality. */
  predicate Tagged(parts: seq<Outline.Part<Meta>>, pageCount: int, quality: String)
  {
    forall i :: 0 <= i < |parts| ==> parts[i].meta.pageCount == pageCount && parts[i].meta.quality == quality
  }

  /** Chunk `k` is numbered `count + k` and carries the document's page count and quality. */
  predicate Numbered(cs: seq<Chunk<Meta>>, count: int, pageCount: int, quality: String)
  {
    forall k :: 0 <= k < |cs| ==> cs[k].index == count + k && cs[k].meta.pageCount == pageCount && cs[k].meta.quality == quality
  }

  lemma PartNumbered(p: Outline.Part<Meta>, maxSize: int, count: int)
    ensures Numbered(Outline.PartChunks(p, maxSize, count), count, p.meta.pageCount, p.meta.quality)
  {
    hide Pack, Kept, TrimSpace;
  }

  lemma NumberedAppend(a: seq<Chunk<Meta>>, b: seq<Chunk<Meta>>, pageCount: int, quality: String)
    requires Numbered(a, 0, pageCount, quality) && Numbered(b, |a|, pageCount, quality)
    ensures Numbered(a + b, 0, pageCount, quality)
  {
    assert forall k :: |a| <= k < |a + b| ==> (a + b)[k] == b[k - |a|];
  }

  lemma {:induction false} ChunkPartsNumbered(parts: seq<Outline.Part<Meta>>, maxSize: int, pageCount: int, quality: String)
    requires Tagged(parts, pageCount, quality)
    ensures Numbered(Outline.ChunkParts(parts, maxSize), 0, pageCount, quality)
    decreases |parts|
  {
    if |parts| > 0 {
      var init := parts[..|parts| - 1];
      var last := parts[|parts| - 1];
      hide Outline.PartChunks;
      assert Tagged(init, pageCount, quality);
      ChunkPartsNumbered(init, maxSize, pageCount, quality);
      var prev := Outline.ChunkParts(init, maxSize);
      PartNumbered(last, maxSize, |prev|);
      NumberedAppend(prev, Outline.PartChunks(last, maxSize, |prev|), pageCount, quality);
    }
  }

  /**
   * Empty input gives no chunks and an unparsable file an error; otherwise
   * the chunks are numbered 0, 1, ..., each carries the document's page
   * count and extraction quality, and only a single paragraph of a section
   * may exceed the limit.
   */
  lemma ChunkPdfSound(size: nat, maxSize: int, parsed: Option<Parsed>, rx: Patterns)
    ensures size == 0 ==> ChunkPdf(size, maxSize, parsed, rx) == Ok(EmptyResult(Name))
    ensures size > 0 && parsed.None? ==> ChunkPdf(size, maxSize, parsed, rx).Err?
    ensures size > 0 && parsed.Some? ==>
      var d := parsed.value;
      var r := ChunkPdf(size, maxSize, parsed, rx);
      var parts := Parts(DocSections(d, rx), |d.streams|, Quality(d.fonts, d.xrefEntries));
      && r.Ok? && r.value.totalChunks == |r.value.chunks| && r.value.originalSize == size
      && Sequential(r.value.chunks)
      && Numbered(r.value.chunks, 0, |d.streams|, Quality(d.fonts, d.xrefEntries))
      && Outline.AllWithin(r.value.chunks, parts, Limit(maxSize))
  {
    if size > 0 && parsed.Some? {
      var d := parsed.value;
      var parts := Parts(DocSections(d, rx), |d.streams|, Quality(d.fonts, d.xrefEntries));
      ChunkPartsNumbered(parts, Limit(maxSize), |d.streams|, Quality(d.fonts, d.xrefEntries));
      Outline.ChunkPartsWithin(parts, Limit(maxSize));
    }
  }

  /** `Chunk`. */
  method Chunk(size: nat, maxSize: int, parsed: Option<Parsed>, rx: Patterns) returns (r: Result<ChunkResult<Meta>>)
    ensures r == ChunkPdf(size, maxSize, parsed, rx)
  {
    hide Pages, SectionsOf, Parts, Outline.ChunkParts;
    if size == 0 {
      return Ok(EmptyResult(Name));
    }
    var m := if maxSize <= 0 then DefaultMaxChunkSize else maxSize;
    if parsed.None? {
      return Err("failed to read PDF");
    }
    var d := parsed.value;
    var quality := if d.fonts > 0 || d.xrefEntries > 100 then "medium" else "low";
    var pages := ExtractPages(d.streams);
    var sections := BuildSections(pages, rx);
    var chunks := Outline.ChunkAll(Parts(sections, |d.streams|, quality), m);
    return Ok(ChunkResult(chunks, |chunks|, Name, size));
  }
}
