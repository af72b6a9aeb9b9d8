/**
 * The SQL chunker: a statement lexer that keeps `;` inside strings, comments
 * and PostgreSQL dollar quotes, grouping of statements by table, dialect
 * detection and the chunks built from the groups.
 *
 * The lexer reads the text one line at a time and ends each line with "\n";
 * here it reads `text + "\n"` in one pass, where every "\n" is a line end.
 * Look-ahead stops at the line end as in the per-line loop.
 */
module SqlChunker {
  import opened Text
  import opened Wrappers

  // ---------------------------------------------------------------------
  // Dollar-quote tags

  predicate TagChar(c: char)
  {
    ('a' <= c <= 'z') || ('A' <= c <= 'Z') || ('0' <= c <= '9') || c == '_'
  }

  /** `$`, then letters, digits or `_`, then `$`. */
  predicate IsDollarTag(t: String)
  {
    |t| >= 2 && t[0] == '$' && t[|t| - 1] == '$' && forall k :: 1 <= k < |t| - 1 ==> TagChar(t[k])
  }

  /** The end of the run of tag characters that starts at `k`. */
  function TagRun(r: String, k: nat): (j: nat)
    requires k <= |r|
    ensures k <= j <= |r|
    ensures forall m :: k <= m < j ==> TagChar(r[m])
    ensures j < |r| ==> !TagChar(r[j])
    decreases |r| - k
  {
    if k < |r| && TagChar(r[k]) then TagRun(r, k + 1) else k
  }

  /**
   * The dollar-quote tag at the start of `r`: the only prefix of `r` that is
   * a tag, or "" when there is none.
   */
  function DollarTag(r: String): (tag: String)
    ensures tag == [] || (IsDollarTag(tag) && HasPrefix(r, tag))
    ensures forall k :: 2 <= k <= |r| && IsDollarTag(r[..k]) ==> tag == r[..k]
  {
    if |r| == 0 || r[0] != '$' then []
    else
      var j := TagRun(r, 1);
      if j < |r| && r[j] == '$' then
        assert forall k :: 2 <= k <= |r| && k != j + 1 ==> !IsDollarTag(r[..k]) by {
          forall k | 2 <= k <= |r| && k != j + 1 ensures !IsDollarTag(r[..k]) {
            NoOtherTag(r, j, k);
          }
        }
        r[..j + 1]
      else
        assert forall k :: 2 <= k <= |r| ==> !IsDollarTag(r[..k]) by {
          forall k | 2 <= k <= |r| ensures !IsDollarTag(r[..k]) {
            NoOtherTag(r, j, k);
          }
        }
        []
  }

  /** Only the prefix that ends at the first character after the tag run can be a tag. */
  lemma NoOtherTag(r: String, j: nat, k: nat)
    requires |r| > 0 && r[0] == '$' && j == TagRun(r, 1)
    requires 2 <= k <= |r|
    requires k != j + 1 || !(j < |r| && r[j] == '$')
    ensures !IsDollarTag(r[..k])
  {
    if k - 1 < j {
      assert r[..k][k - 1] == r[k - 1] && TagChar(r[k - 1]);
    } else if k - 1 == j {
      assert r[..k][k - 1] == r[j];
    } else {
      assert r[..k][j] == r[j] && !TagChar(r[j]);
    }
  }

  /** `extractDollarTag`: the builder loop that reads a tag. */
  method ExtractDollarTag(r: String) returns (tag: String)
    ensures tag == DollarTag(r)
  {
    if |r| == 0 || r[0] != '$' {
      return [];
    }
    var b: String := "$";
    var i := 1;
    while i < |r|
      invariant 1 <= i <= |r|
      invariant b == r[..i]
      invariant forall m :: 1 <= m < i ==> TagChar(r[m])
    {
      var ch := r[i];
      if ch == '$' {
        assert TagRun(r, 1) == i by { TagRunFrom(r, 1, i); }
        return b + "$";
      }
      if TagChar(ch) {
        b := b + [ch];
      } else {
        assert TagRun(r, 1) == i by { TagRunFrom(r, 1, i); }
        return [];
      }
      i := i + 1;
    }
    assert TagRun(r, 1) == i by { TagRunFrom(r, 1, i); }
    tag := [];
  }

  lemma {:induction false} TagRunFrom(r: String, k: nat, i: nat)
    requires k <= i <= |r|
    requires forall m :: k <= m < i ==> TagChar(r[m])
    requires i == |r| || !TagChar(r[i])
    ensures TagRun(r, k) == i
    decreases i - k
  {
    if k < i {
      TagRunFrom(r, k + 1, i);
    }
  }

  /** `matchDollarTag`: whether `r` starts with `tag`. */
  method MatchDollarTag(r: String, tag: String) returns (b: bool)
    ensures b <==> HasPrefix(r, tag)
  {
    if |r| < |tag| {
      return false;
    }
    var i := 0;
    while i < |tag|
      invariant 0 <= i <= |tag|
      invariant r[..i] == tag[..i]
    {
      if r[i] != tag[i] {
        return false;
      }
      assert r[..i + 1] == r[..i] + [r[i]];
      assert tag[..i + 1] == tag[..i] + [tag[i]];
      i := i + 1;
    }
    assert tag[..i] == tag;
    b := true;
  }

  // ---------------------------------------------------------------------
  // The statement lexer

  /**
   * The lexer's flags: inside a string (and its quote), a block comment, a
   * line comment, or a dollar quote (and its tag).
   */
  datatype Lex = Lex(inString: bool, quote: char, inBlock: bool, inLine: bool, inDollar: bool, tag: String)

  const Fresh: Lex := Lex(false, 0 as char, false, false, false, [])

  /** Plain SQL: a `;` here ends the statement. */
  predicate IsCode(st: Lex)
  {
    !st.inString && !st.inBlock && !st.inLine && !st.inDollar
  }

  predicate LexOk(st: Lex)
  {
    st.inDollar ==> IsDollarTag(st.tag)
  }

  /** The flags after one step, where the next step starts, and whether the statement ends here. */
  datatype Move = Move(st: Lex, next: nat, ends: bool)

  /**
   * One iteration of the lexer at position `i` of the text. With
   * `fixedLineComment` false this is the loop as written, where a comment opener opens a
   * block comment even inside a line comment; with it true, a line comment
   * hides everything up to the end of its line.
   */
  function Step(st: Lex, s: String, i: nat, fixedLineComment: bool): (m: Move)
    requires i < |s| && LexOk(st)
    ensures i < m.next <= |s| && LexOk(m.st)
    ensures m.ends <==> s[i] == ';' && IsCode(st)
    ensures m.ends ==> m.next == i + 1 && m.st == st
  {
    var ch := s[i];
    var nextCh := if i + 1 < |s| && s[i + 1] != '\n' then s[i + 1] else 0 as char;
    if ch == '\n' then
      Move(st.(inLine := false), i + 1, false)
    else if !st.inString && !st.inBlock && !st.inLine && ch == '$' && st.inDollar && HasPrefix(s[i..], st.tag) then
      Move(st.(inDollar := false), i + |st.tag|, false)
    else if !st.inString && !st.inBlock && !st.inLine && ch == '$' && !st.inDollar && DollarTag(s[i..]) != [] then
      var t := DollarTag(s[i..]);
      Move(st.(inDollar := true, tag := t), i + |t|, false)
    else if !st.inString && !st.inDollar && ch == '/' && nextCh == '*' && !st.inBlock
            && (!fixedLineComment || !st.inLine) then
      Move(st.(inBlock := true), i + 2, false)
    else if !st.inString && !st.inDollar && ch == '*' && nextCh == '/' && st.inBlock then
      Move(st.(inBlock := false), i + 2, false)
    else
      var st1 :=
        if !st.inString && !st.inDollar && ch == '-' && nextCh == '-' && !st.inLine && !st.inBlock
        then st.(inLine := true) else st;
      if !st1.inBlock && !st1.inLine && !st1.inDollar && (ch == '\'' || ch == '"') then
        if !st1.inString then Move(st1.(inString := true, quote := ch), i + 1, false)
        else if ch == st1.quote && nextCh == st1.quote then Move(st1, i + 2, false)
        else if ch == st1.quote then Move(st1.(inString := false), i + 1, false)
        else Move(st1, i + 1, false)
      else
        Move(st1, i + 1, ch == ';' && IsCode(st1))
  }

  /**
   * The pieces of `s` from position `i`, given the flags and the text of the
   * current piece: a piece ends after each `;` read as plain SQL, and the
   * last piece is whatever remains.
   */
  function Lexed(s: String, i: nat, st: Lex, cur: String, fixedLineComment: bool): seq<String>
    requires i <= |s| && LexOk(st)
    decreases |s| - i
  {
    if i == |s| then [cur]
    else
      var m := Step(st, s, i, fixedLineComment);
      if m.ends then [cur + s[i..m.next]] + Lexed(s, m.next, m.st, [], fixedLineComment)
      else Lexed(s, m.next, m.st, cur + s[i..m.next], fixedLineComment)
  }

  function Concat(parts: seq<String>): String
  {
    if |parts| == 0 then [] else parts[0] + Concat(parts[1..])
  }

  /** The pieces that are not blank, in order. */
  function NonBlank(parts: seq<String>): (r: seq<String>)
    ensures forall k :: 0 <= k < |r| ==> !IsBlank(r[k])
  {
    if |parts| == 0 then []
    else (if IsBlank(parts[0]) then [] else [parts[0]]) + NonBlank(parts[1..])
  }

  lemma {:induction false} NonBlankAppend(a: seq<String>, b: seq<String>)
    ensures NonBlank(a + b) == NonBlank(a) + NonBlank(b)
    decreases |a|
  {
    if |a| > 0 {
      assert (a + b)[1..] == a[1..] + b;
      NonBlankAppend(a[1..], b);
    } else {
      assert a + b == b;
    }
  }

  function Pieces(text: String, fixedLineComment: bool): seq<String>
  {
    Lexed(text + "\n", 0, Fresh, [], fixedLineComment)
  }

  /** The statements of `text`, as `parseStatements` splits it. */
  function Statements(text: String): seq<String>
  {
    NonBlank(Pieces(text, true))
  }

  /** The statements as the loop is written. */
  function StatementsAsWritten(text: String): seq<String>
  {
    NonBlank(Pieces(text, false))
  }

  /** No text is lost: the pieces concatenate to the rest of the input. */
  lemma {:induction false} LexedConcat(s: String, i: nat, st: Lex, cur: String, f: bool)
    requires i <= |s| && LexOk(st)
    ensures Concat(Lexed(s, i, st, cur, f)) == cur + s[i..]
    decreases |s| - i
  {
    if i == |s| {
      assert Concat([cur]) == cur + Concat([]);
    } else {
      var m := Step(st, s, i, f);
      var piece := s[i..m.next];
      assert s[i..] == piece + s[m.next..];
      if m.ends {
        var tail := Lexed(s, m.next, m.st, [], f);
        assert Lexed(s, i, st, cur, f) == [cur + piece] + tail;
        assert Concat(tail) == s[m.next..] by {
          LexedConcat(s, m.next, m.st, [], f);
        }
        ConcatCons(cur + piece, tail);
      } else {
        assert Lexed(s, i, st, cur, f) == Lexed(s, m.next, m.st, cur + piece, f);
        LexedConcat(s, m.next, m.st, cur + piece, f);
      }
    }
  }

  lemma ConcatCons(a: String, ps: seq<String>)
    ensures Concat([a] + ps) == a + Concat(ps)
  {
    assert ([a] + ps)[1..] == ps;
  }

  /** Every piece but the last ends with a `;` that was read as plain SQL. */
  lemma {:induction false} LexedEndsAtSemicolon(s: String, i: nat, st: Lex, cur: String, f: bool)
    requires i <= |s| && LexOk(st)
    ensures var ps := Lexed(s, i, st, cur, f);
      |ps| >= 1 && forall k :: 0 <= k < |ps| - 1 ==> |ps[k]| > 0 && ps[k][|ps[k]| - 1] == ';'
    decreases |s| - i
  {
    if i < |s| {
      var m := Step(st, s, i, f);
      LexedEndsAtSemicolon(s, m.next, m.st, if m.ends then [] else cur + s[i..m.next], f);
    }
  }

  /**
   * The statements are the non-blank pieces of a split that loses no text
   * (the input and the final line break), and each piece before the last
   * ends at a `;`.
   */
  lemma StatementsSound(text: String)
    ensures Concat(Pieces(text, true)) == text + "\n"
    ensures forall k :: 0 <= k < |Statements(text)| ==> !IsBlank(Statements(text)[k])
    ensures var ps := Pieces(text, true);
      forall k :: 0 <= k < |ps| - 1 ==> |ps[k]| > 0 && ps[k][|ps[k]| - 1] == ';'
  {
    LexedConcat(text + "\n", 0, Fresh, [], true);
    LexedEndsAtSemicolon(text + "\n", 0, Fresh, [], true);
  }

  /** Inside a string, a comment or a dollar quote, a `;` never ends a statement. */
  lemma QuotedSemicolonDoesNotEnd(st: Lex, s: String, i: nat, f: bool)
    requires i < |s| && LexOk(st) && s[i] == ';'
    requires st.inString || st.inBlock || st.inLine || st.inDollar
    ensures !Step(st, s, i, f).ends && Step(st, s, i, f).st == st
  {
  }

  /** In the corrected lexer, nothing inside a line comment opens a block comment. */
  lemma LineCommentHidesBlockOpener(st: Lex, s: String, i: nat)
    requires i < |s| && LexOk(st) && st.inLine && !st.inBlock
    ensures !Step(st, s, i, true).st.inBlock
  {
  }

  const CommentSample: String := "--/*\na;b\n"

  /** The lexer as written, from the `\n` ending the comment line on, stays in the block comment. */
  lemma AsWrittenSampleTail()
    ensures Lexed(CommentSample, 4, Fresh.(inBlock := true, inLine := true), CommentSample[..4], false) == [CommentSample]
  {
    var s := CommentSample;
    var l2 := Fresh.(inBlock := true, inLine := true);
    var b := l2.(inLine := false);
    assert Step(l2, s, 4, false) == Move(b, 5, false);
    assert Step(b, s, 5, false) == Move(b, 6, false);
    assert Step(b, s, 6, false) == Move(b, 7, false);
    assert Step(b, s, 7, false) == Move(b, 8, false);
    assert Step(b, s, 8, false) == Move(b, 9, false);
    assert Lexed(s, 9, b, s, false) == [s];
    assert s[..8] + s[8..9] == s[..9] == s;
    assert Lexed(s, 8, b, s[..8], false) == [s];
    assert s[..7] + s[7..8] == s[..8];
    assert Lexed(s, 7, b, s[..7], false) == [s];
    assert s[..6] + s[6..7] == s[..7];
    assert Lexed(s, 6, b, s[..6], false) == [s];
    assert s[..5] + s[5..6] == s[..6];
    assert Lexed(s, 5, b, s[..5], false) == [s];
    assert s[..4] + s[4..5] == s[..5];
  }

  /** The lexer as written reads the sample as one piece. */
  lemma AsWrittenSamplePieces()
    ensures Lexed(CommentSample, 0, Fresh, [], false) == [CommentSample]
  {
    var s := CommentSample;
    var l1 := Fresh.(inLine := true);
    var l2 := l1.(inBlock := true);
    assert Step(Fresh, s, 0, false) == Move(l1, 1, false);
    assert Step(l1, s, 1, false) == Move(l1, 2, false);
    assert Step(l1, s, 2, false) == Move(l2, 4, false);
    AsWrittenSampleTail();
    assert l2 == Fresh.(inBlock := true, inLine := true);
    assert Lexed(s, 4, l2, s[..4], false) == [s];
    assert s[..2] + s[2..4] == s[..4];
    assert Lexed(s, 2, l1, s[..2], false) == [s];
    assert s[..1] + s[1..2] == s[..2];
    assert Lexed(s, 1, l1, s[..1], false) == [s];
    assert s[..0] + s[0..1] == s[..1];
    assert Lexed(s, 0, Fresh, s[..0], false) == [s];
    assert s[..0] == [];
  }

  /** The corrected lexer, after the comment line, ends a piece at the `;`. */
  lemma FixedSampleTail()
    ensures Lexed(CommentSample, 5, Fresh, CommentSample[..5], true) == ["--/*\na;", "b\n"]
  {
    var s := CommentSample;
    assert Step(Fresh, s, 5, true) == Move(Fresh, 6, false);
    assert Step(Fresh, s, 6, true) == Move(Fresh, 7, true);
    assert Step(Fresh, s, 7, true) == Move(Fresh, 8, false);
    assert Step(Fresh, s, 8, true) == Move(Fresh, 9, false);
    assert Lexed(s, 9, Fresh, s[7..], true) == [s[7..]];
    assert s[7..8] + s[8..9] == s[7..9] == s[7..];
    assert Lexed(s, 8, Fresh, s[7..8], true) == [s[7..]];
    assert s[7..7] + s[7..8] == s[7..8];
    assert Lexed(s, 7, Fresh, s[7..7], true) == [s[7..]];
    assert s[7..7] == [] && s[7..] == "b\n";
    assert Lexed(s, 7, Fresh, [], true) == ["b\n"];
    assert s[..6] + s[6..7] == s[..7] == "--/*\na;";
    assert Lexed(s, 6, Fresh, s[..6], true) == ["--/*\na;", "b\n"];
    assert s[..5] + s[5..6] == s[..6];
  }

  /** The corrected lexer ends the first piece at the `;` of the second line. */
  lemma FixedSamplePieces()
    ensures Lexed(CommentSample, 0, Fresh, [], true) == ["--/*\na;", "b\n"]
  {
    var s := CommentSample;
    var l1 := Fresh.(inLine := true);
    assert Step(Fresh, s, 0, true) == Move(l1, 1, false);
    assert Step(l1, s, 1, true) == Move(l1, 2, false);
    assert Step(l1, s, 2, true) == Move(l1, 3, false);
    assert Step(l1, s, 3, true) == Move(l1, 4, false);
    assert Step(l1, s, 4, true) == Move(Fresh, 5, false);
    FixedSampleTail();
    assert s[..4] + s[4..5] == s[..5];
    assert Lexed(s, 4, l1, s[..4], true) == ["--/*\na;", "b\n"];
    assert s[..3] + s[3..4] == s[..4];
    assert Lexed(s, 3, l1, s[..3], true) == ["--/*\na;", "b\n"];
    assert s[..2] + s[2..3] == s[..3];
    assert Lexed(s, 2, l1, s[..2], true) == ["--/*\na;", "b\n"];
    assert s[..1] + s[1..2] == s[..2];
    assert Lexed(s, 1, l1, s[..1], true) == ["--/*\na;", "b\n"];
    assert s[..0] + s[0..1] == s[..1];
    assert Lexed(s, 0, Fresh, s[..0], true) == ["--/*\na;", "b\n"];
    assert s[..0] == [];
  }

  /** As written, a comment opener after `--` opens a block comment that outlives the line. */
  lemma AsWrittenLineCommentOpensBlock()
    ensures Step(Fresh.(inLine := true), "/*", 0, false).st.inBlock
    ensures StatementsAsWritten("--/*\na;b") == ["--/*\na;b\n"]
    ensures Statements("--/*\na;b") == ["--/*\na;", "b\n"]
  {
    assert "--/*\na;b" + "\n" == CommentSample;
    AsWrittenSamplePieces();
    FixedSamplePieces();
    assert !IsSpace(CommentSample[0]);
    assert !IsSpace("b\n"[0]);
  }

  /**
   * `parseStatements` (corrected): the scanning loop. The statements are
   * `Statements(text)`.
   */
  method ParseStatements(text: String) returns (statements: seq<String>)
    ensures statements == Statements(text)
  {
    var s := text + "\n";
    var st := Fresh;
    var cur: String := [];
    ghost var all := Lexed(s, 0, Fresh, [], true);
    ghost var pieces: seq<String> := [];
    statements := [];
    var i := 0;
    while i < |s|
      invariant 0 <= i <= |s| && LexOk(st)
      invariant all == pieces + Lexed(s, i, st, cur, true)
      invariant statements == NonBlank(pieces)
      decreases |s| - i
    {
      st, i, cur, pieces, statements := Advance(s, i, st, cur, pieces, statements);
    }
    assert all == pieces + [cur];
    NonBlankAppend(pieces, [cur]);
    if !IsBlank(cur) {
      statements := statements + [cur];
    }
  }

  /** One iteration of the scanning loop: the pieces found so far plus the rest stay the same. */
  method Advance(s: String, i: nat, st: Lex, cur: String, ghost pieces: seq<String>, statements: seq<String>)
    returns (st': Lex, i': nat, cur': String, ghost pieces': seq<String>, statements': seq<String>)
    requires i < |s| && LexOk(st) && statements == NonBlank(pieces)
    ensures i < i' <= |s| && LexOk(st')
    ensures pieces + Lexed(s, i, st, cur, true) == pieces' + Lexed(s, i', st', cur', true)
    ensures statements' == NonBlank(pieces')
  {
    var m := Step(st, s, i, true);
    LexedUnfold(s, i, st, cur, true);
    cur' := cur + s[i..m.next];
    pieces', statements' := pieces, statements;
    if m.ends {
      NonBlankAppend(pieces, [cur']);
      pieces' := pieces + [cur'];
      if !IsBlank(cur') {
        statements' := statements + [cur'];
      }
      cur' := [];
    }
    st', i' := m.st, m.next;
  }

  /** One step of `Lexed`, as the loop takes it. */
  lemma LexedUnfold(s: String, i: nat, st: Lex, cur: String, f: bool)
    requires i < |s| && LexOk(st)
    ensures var m := Step(st, s, i, f);
      Lexed(s, i, st, cur, f)
        == if m.ends then [cur + s[i..m.next]] + Lexed(s, m.next, m.st, [], f)
           else Lexed(s, m.next, m.st, cur + s[i..m.next], f)
  {
  }

  // ---------------------------------------------------------------------
  // Identifiers

  /** The quoting characters `cleanIdentifier` strips from both ends. */
  predicate QuoteChar(c: char)
  {
    c == '"' || c == '\'' || c == '`' || c == '[' || c == ']'
  }

  /** `strings.Trim(id, quotes)`: quoting characters removed from both ends. */
  function TrimQuotes(s: String): (r: String)
    ensures r == [] || (!QuoteChar(r[0]) && !QuoteChar(r[|r| - 1]))
  {
    var t := s[LeadingIn(s, QuoteChar)..];
    t[..KeptIn(t, QuoteChar)]
  }

  /** Trimming keeps a contiguous piece of the identifier, and drops only quoting characters. */
  lemma TrimQuotesInfix(s: String)
    ensures Contains(s, TrimQuotes(s))
    ensures var n := LeadingIn(s, QuoteChar);
      OccursAt(s, TrimQuotes(s), n)
      && (forall i :: 0 <= i < n ==> QuoteChar(s[i]))
      && (forall i :: n + |TrimQuotes(s)| <= i < |s| ==> QuoteChar(s[i]))
  {
    var n := LeadingIn(s, QuoteChar);
    var t := s[n..];
    var m := KeptIn(t, QuoteChar);
    var r := TrimQuotes(s);
    assert r == s[n..n + m];
    assert 0 <= n <= |s| - |r| && OccursAt(s, r, n);
    forall i | n + m <= i < |s| ensures QuoteChar(s[i]) {
      assert s[i] == t[i - n];
    }
  }

  /** The text after the last `.`, or all of `t` when it has none. */
  function LastComponent(t: String): (r: String)
    ensures HasSuffix(t, r) && forall k :: 0 <= k < |r| ==> r[k] != '.'
    ensures |r| < |t| ==> t[|t| - |r| - 1] == '.'
  {
    if |t| == 0 || t[|t| - 1] == '.' then []
    else LastComponent(t[..|t| - 1]) + [t[|t| - 1]]
  }

  /**
   * `cleanIdentifier`: quotes stripped, then the last component of a
   * schema-qualified name.
   */
  function CleanIdentifier(id: String): (r: String)
    ensures forall k :: 0 <= k < |r| ==> r[k] != '.'
    ensures HasSuffix(TrimQuotes(id), r)
    ensures |r| < |TrimQuotes(id)| ==> TrimQuotes(id)[|TrimQuotes(id)| - |r| - 1] == '.'
  {
    LastComponent(TrimQuotes(id))
  }

  predicate NoDot(t: String)
  {
    forall k :: 0 <= k < |t| ==> t[k] != '.'
  }

  /** A name without a dot is its own last component. */
  lemma {:induction false} LastComponentNoDot(b: String)
    requires NoDot(b)
    ensures LastComponent(b) == b
    decreases |b|
  {
    if |b| > 0 {
      var b' := b[..|b| - 1];
      assert NoDot(b') by {
        assert forall k :: 0 <= k < |b'| ==> b'[k] == b[k];
      }
      LastComponentNoDot(b');
      assert b == b' + [b[|b| - 1]];
    }
  }

  /** The last component is everything after the final dot. */
  lemma {:induction false} LastComponentAfterDot(a: String, b: String)
    requires NoDot(b)
    ensures LastComponent(a + "." + b) == b
    decreases |b|
  {
    var t := a + "." + b;
    if |b| == 0 {
      assert t[|t| - 1] == '.';
    } else {
      var b' := b[..|b| - 1];
      assert NoDot(b') by {
        assert forall k :: 0 <= k < |b'| ==> b'[k] == b[k];
      }
      assert LastComponent(a + "." + b') == b' by {
        LastComponentAfterDot(a, b');
      }
      assert t[..|t| - 1] == a + "." + b';
      assert t[|t| - 1] == b[|b| - 1] != '.';
      assert b == b' + [b[|b| - 1]];
    }
  }

  /** A schema-qualified name keeps its table part, with its quotes stripped. */
  lemma CleanQualifiedName(schema: String, name: String)
    requires NoDot(name) && |name| > 0 && !QuoteChar(name[|name| - 1])
    requires |schema| > 0 && !QuoteChar(schema[0])
    ensures CleanIdentifier(schema + "." + name) == name
  {
    var t := schema + "." + name;
    assert t[0] == schema[0] && t[|t| - 1] == name[|name| - 1];
    assert LeadingIn(t, QuoteChar) == 0;
    assert t[0..] == t;
    assert KeptIn(t, QuoteChar) == |t|;
    assert TrimQuotes(t) == t;
    LastComponentAfterDot(schema, name);
  }

  /** Quoting characters at the ends of an unqualified name are dropped. */
  lemma CleanQuotedName(q: char, name: String)
    requires QuoteChar(q) && NoDot(name)
    requires |name| > 0 && !QuoteChar(name[0]) && !QuoteChar(name[|name| - 1])
    ensures CleanIdentifier([q] + name + [q]) == name
  {
    var t := [q] + name + [q];
    var u := name + [q];
    assert t[1..] == u && u[0] == name[0];
    assert LeadingIn(u, QuoteChar) == 0;
    assert LeadingIn(t, QuoteChar) == 1;
    assert u[..|u| - 1] == name;
    assert KeptIn(name, QuoteChar) == |name|;
    assert KeptIn(u, QuoteChar) == |name|;
    assert TrimQuotes(t) == name;
    LastComponentNoDot(name);
  }
}
