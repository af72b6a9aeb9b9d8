/**
 * The XML chunker (internal/chunkers/xml.go). The token stream of Go's XML
 * decoder is an input, and so is the decoder's rebuild of an element's
 * children; the model covers locating a top-level element's text in the
 * source, collecting the top-level elements, splitting large elements by
 * children or by lines, and the chunk loop.
 */
module Xml {
  import opened Text
  import opened Chunks
  import opened Wrappers
  import Packing

  const Name: String := "xml"

  /** `CanHandle`. */
  predicate CanHandle(mimeType: String, language: String)
  {
    var mime := ToLower(mimeType);
    var lang := ToLower(language);
    || mime == "application/xml" || mime == "text/xml" || HasSuffix(mime, "+xml")
    || HasSuffix(lang, ".xml") || HasSuffix(lang, ".xsd") || HasSuffix(lang, ".xsl")
    || HasSuffix(lang, ".xslt") || HasSuffix(lang, ".svg") || HasSuffix(lang, ".plist")
    || lang == "xml"
  }

  /**
   * Every MIME type ending in "+xml", and every name ending in one of the
   * six extensions, is accepted whatever its case; anything else only as
   * the two XML MIME types or the hint "xml".
   */
  lemma CanHandleCases(mimeType: String, language: String)
    ensures HasSuffix(ToLower(mimeType), "+xml") ==> CanHandle(mimeType, language)
    ensures (exists ext :: ext in [".xml", ".xsd", ".xsl", ".xslt", ".svg", ".plist"] && HasSuffix(ToLower(language), ext))
            ==> CanHandle(mimeType, language)
    ensures CanHandle(mimeType, language) && !HasSuffix(ToLower(mimeType), "+xml")
            && !(exists ext :: ext in [".xml", ".xsd", ".xsl", ".xslt", ".svg", ".plist"] && HasSuffix(ToLower(language), ext))
            ==> ToLower(mimeType) in {"application/xml", "text/xml"} || ToLower(language) == "xml"
  {
    var lang := ToLower(language);
    if CanHandle(mimeType, language) && !HasSuffix(ToLower(mimeType), "+xml")
       && !(exists ext :: ext in [".xml", ".xsd", ".xsl", ".xslt", ".svg", ".plist"] && HasSuffix(lang, ext)) {
      assert !HasSuffix(lang, ".xml") by { assert ".xml" in [".xml", ".xsd", ".xsl", ".xslt", ".svg", ".plist"]; }
      assert !HasSuffix(lang, ".xsd") by { assert ".xsd" in [".xml", ".xsd", ".xsl", ".xslt", ".svg", ".plist"]; }
      assert !HasSuffix(lang, ".xsl") by { assert ".xsl" in [".xml", ".xsd", ".xsl", ".xslt", ".svg", ".plist"]; }
      assert !HasSuffix(lang, ".xslt") by { assert ".xslt" in [".xml", ".xsd", ".xsl", ".xslt", ".svg", ".plist"]; }
      assert !HasSuffix(lang, ".svg") by { assert ".svg" in [".xml", ".xsd", ".xsl", ".xslt", ".svg", ".plist"]; }
      assert !HasSuffix(lang, ".plist") by { assert ".plist" in [".xml", ".xsd", ".xsl", ".xslt", ".svg", ".plist"]; }
    }
  }

  // ---------------------------------------------------------------------
  // extractElementContent

  /** A character that may follow an element's name in its opening tag. */
  predicate AfterName(c: char)
  {
    c == ' ' || c == '>' || c == '/' || c == '\t' || c == '\n'
  }

  /** `<name` opens an element called `name` at `pos + 1`, not one whose name merely starts with it. */
  predicate OpensAt(text: String, name: String, pos: int)
    requires 0 <= pos < |text|
  {
    var rest := text[pos + 1..];
    HasPrefix(rest, name) && |rest| > |name| && AfterName(rest[|name|])
  }

  /**
   * The scan of `extractElementContent` from `pos` with nesting `depth`:
   * the end (exclusive) of the element that opened at `start`. A closing
   * tag that brings the depth to 0 ends it at its `>`; `/>` ends it when
   * the depth is 1; running off the end of the text ends it there.
   */
  function ElementEnd(text: String, name: String, start: int, pos: int, depth: int): (end: int)
    requires 0 <= start <= pos <= |text| && start < |text|
    ensures start < end <= |text| && pos <= end
    decreases |text| - pos
  {
    if pos >= |text| then |text|
    else if pos + 1 < |text| && text[pos] == '<' then
      if text[pos + 1] == '/' then
        if HasPrefix(text[pos..], "</" + name) then
          var close := IndexFrom(text, ">", pos);
          if depth - 1 == 0 && close != -1 then close + 1
          else ElementEnd(text, name, start, pos + 1, depth - 1)
        else ElementEnd(text, name, start, pos + 1, depth)
      else if text[pos + 1] != '!' && text[pos + 1] != '?' then
        ElementEnd(text, name, start, pos + 1, if OpensAt(text, name, pos) then depth + 1 else depth)
      else ElementEnd(text, name, start, pos + 1, depth)
    else if pos + 1 < |text| && text[pos] == '/' && text[pos + 1] == '>' then
      if depth == 1 then pos + 2 else ElementEnd(text, name, start, pos + 2, depth - 1)
    else ElementEnd(text, name, start, pos + 1, depth)
  }

  /** Where the first element called `name` at or after `from` starts and ends, if `<name` occurs there. */
  function FindElement(content: String, name: String, from: nat): (r: Option<(nat, nat)>)
    requires from <= |content|
    ensures r.Some? ==> from <= r.value.0 < r.value.1 <= |content|
  {
    var text := content[from..];
    var i := IndexFrom(text, "<" + name, 0);
    if i == -1 then None else Some((from + i, from + ElementEnd(text, name, i, i, 0)))
  }

  /** `extractElementContent`. */
  function ExtractElementContent(content: String, name: String, from: nat): String
    requires from <= |content|
  {
    match FindElement(content, name, from)
    case None => []
    case Some((s, e)) => content[s..e]
  }

  /** The result is empty exactly when `<name` does not occur at or after `from`. */
  lemma ExtractEmpty(content: String, name: String, from: nat)
    requires from <= |content|
    ensures ExtractElementContent(content, name, from) == [] <==> !Contains(content[from..], "<" + name)
  {
    var text := content[from..];
    var i := IndexFrom(text, "<" + name, 0);
    if i != -1 {
      assert 0 <= i <= |text| - |"<" + name|;
    }
  }

  /** A name as the XML decoder reports it: no `<` or `/`. */
  predicate PlainName(name: String)
  {
    forall k :: 0 <= k < |name| ==> name[k] != '<' && name[k] != '/'
  }

  /** From the opening `<` at `start`, the scan does not end before the end of the name. */
  lemma EndAfterTag(text: String, name: String, start: int, depth: int)
    requires 0 <= start < |text|
    requires OccursAt(text, "<" + name, start) && PlainName(name)
    ensures ElementEnd(text, name, start, start, depth) >= start + 1 + |name|
  {
    assert text[start] == '<';
    if |name| > 0 {
      assert text[start + 1] == name[0];
      if text[start + 1] != '!' && text[start + 1] != '?' {
        EndAfterName(text, name, start, start + 1, if OpensAt(text, name, start) then depth + 1 else depth);
      } else {
        EndAfterName(text, name, start, start + 1, depth);
      }
    }
  }

  lemma {:induction false} EndAfterName(text: String, name: String, start: int, pos: int, depth: int)
    requires 0 <= start < pos <= |text|
    requires OccursAt(text, "<" + name, start) && PlainName(name)
    requires pos <= start + 1 + |name|
    ensures ElementEnd(text, name, start, pos, depth) >= start + 1 + |name|
    decreases |text| - pos
  {
    if pos < start + 1 + |name| {
      assert text[pos] == ("<" + name)[pos - start] == name[pos - start - 1];
      EndAfterName(text, name, start, pos + 1, depth);
    }
  }

  /** A found element starts with `<name` and, for a plain name, does not end inside it. */
  lemma FindElementSound(content: String, name: String, from: nat)
    requires from <= |content|
    ensures var r := FindElement(content, name, from);
      r.Some? ==> OccursAt(content, "<" + name, r.value.0) && (PlainName(name) ==> r.value.0 + 1 + |name| <= r.value.1)
  {
    var text := content[from..];
    var tag := "<" + name;
    var i := IndexFrom(text, tag, 0);
    if i != -1 {
      if PlainName(name) {
        EndAfterTag(text, name, i, 0);
      }
      hide FindElement, ElementEnd, IndexFrom;
      assert content[from + i..from + i + |tag|] == text[i..i + |tag|];
    }
  }

  /** Where a non-empty result lies in the source. */
  lemma ExtractSpan(content: String, name: String, from: nat) returns (s: int, e: int)
    requires from <= |content|
    ensures var r := ExtractElementContent(content, name, from);
      r != [] ==>
        && from <= s < e <= |content| && r == content[s..e] && OccursAt(content, "<" + name, s)
        && (PlainName(name) ==> s + 1 + |name| <= e)
  {
    FindElementSound(content, name, from);
    s, e := 0, 0;
    match FindElement(content, name, from)
    case None =>
    case Some((a, b)) =>
      s, e := a, b;
  }

  /**
   * A non-empty result is the text of the source from the first `<name` at
   * or after `from`, and, for a name without `<` or `/`, starts with
   * `<name`.
   */
  lemma ExtractStartsWithTag(content: String, name: String, from: nat)
    requires from <= |content|
    ensures var r := ExtractElementContent(content, name, from);
      r != [] ==> exists s :: from <= s <= |content| && HasPrefix(content[s..], r) && OccursAt(content, "<" + name, s)
    ensures var r := ExtractElementContent(content, name, from);
      r != [] && PlainName(name) ==> HasPrefix(r, "<" + name)
  {
    var s, e := ExtractSpan(content, name, from);
    var r := ExtractElementContent(content, name, from);
    hide ExtractElementContent;
    if r != [] {
      assert content[s..][..|r|] == r;
      if PlainName(name) {
        assert r[..|"<" + name|] == content[s..s + |"<" + name|];
      }
    }
  }

  /** The scan of `extractElementContent` from the opening `<` at `start`. */
  method ScanElement(text: String, name: String, start: int) returns (end: int)
    requires 0 <= start < |text|
    ensures end == ElementEnd(text, name, start, start, 0)
  {
    var depth := 0;
    var pos := start;
    while pos < |text|
      invariant start <= pos <= |text|
      invariant ElementEnd(text, name, start, pos, depth) == ElementEnd(text, name, start, start, 0)
      decreases |text| - pos
    {
      if pos + 1 < |text| && text[pos] == '<' {
        if text[pos + 1] == '/' {
          if HasPrefix(text[pos..], "</" + name) {
            depth := depth - 1;
            if depth == 0 {
              var endPos := IndexFrom(text, ">", pos);
              if endPos != -1 {
                return endPos + 1;
              }
            }
          }
          pos := pos + 1;
        } else {
          if text[pos + 1] != '!' && text[pos + 1] != '?' && OpensAt(text, name, pos) {
            depth := depth + 1;
          }
          pos := pos + 1;
        }
      } else if pos + 1 < |text| && text[pos] == '/' && text[pos + 1] == '>' {
        if depth == 1 {
          return pos + 2;
        }
        depth := depth - 1;
        pos := pos + 2;
      } else {
        pos := pos + 1;
      }
    }
    return |text|;
  }

  /** Where `extractElementContent` finds the element called `name` at or after `from`. */
  method LocateElement(content: String, name: String, from: nat) returns (r: Option<(nat, nat)>)
    requires from <= |content|
    ensures r == FindElement(content, name, from)
  {
    var text := content[from..];
    var i := IndexFrom(text, "<" + name, 0);
    if i == -1 {
      return None;
    }
    var end := ScanElement(text, name, i);
    return Some((from + i, from + end));
  }

  /** `extractElementContent`. */
  method ExtractElement(content: String, name: String, from: nat) returns (r: String)
    requires from <= |content|
    ensures r == ExtractElementContent(content, name, from)
  {
    var found := LocateElement(content, name, from);
    if found.None? {
      return [];
    }
    var (s, e) := found.value;
    return content[s..e];
  }

  // ---------------------------------------------------------------------
  // parseXMLElements over the decoder's tokens

  /** The decoder's tokens that matter here: a start tag with its local name, and an end tag. */
  datatype Token = Start(local: String) | End

  /** `xmlElement`. */
  datatype Element = Element(name: String, path: String, content: String)

  /**
   * The loop's state: the root's name, the length of `currentPath`, the
   * depth inside the current top-level element, its name, the search
   * offset, and the elements so far.
   */
  datatype Parser = Parser(root: String, pathLen: int, depth: int, current: String, offset: nat, elements: seq<Element>)

  /**
   * One token. `fixed` chooses where the next search starts once an element
   * has been taken: after the element's text (`true`), or at the old
   * offset plus the element's length, as the code has it (`false`).
   */
  function ParseStep(content: String, p: Parser, t: Token, fixed: bool): (q: Parser)
    requires p.offset <= |content|
    ensures p.offset <= q.offset <= |content|
  {
    match t
    case Start(n) =>
      if p.root == [] then p.(root := n, pathLen := p.pathLen + 1)
      else if p.pathLen == 1 then p.(current := n, pathLen := p.pathLen + 1, depth := 1)
      else if p.depth > 0 then p.(pathLen := p.pathLen + 1, depth := p.depth + 1)
      else p
    case End =>
      if p.depth > 0 then
        var pathLen := if p.pathLen > 0 then p.pathLen - 1 else p.pathLen;
        if p.depth - 1 != 0 then p.(depth := p.depth - 1, pathLen := pathLen)
        else
          var found := FindElement(content, p.current, p.offset);
          var text := ExtractElementContent(content, p.current, p.offset);
          var next: nat := if text == [] then p.offset else if fixed then found.value.1 else p.offset + |text|;
          var elements := if text == [] then p.elements else p.elements + [Element(p.current, "/" + p.root + "/" + p.current, text)];
          Parser(p.root, pathLen, 0, [], next, elements)
      else if p.pathLen > 0 then p.(pathLen := p.pathLen - 1)
      else p
  }

  function ParseRun(content: String, tokens: seq<Token>, fixed: bool): (p: Parser)
    ensures p.offset <= |content|
  {
    if |tokens| == 0 then Parser([], 0, 0, [], 0, [])
    else ParseStep(content, ParseRun(content, tokens[..|tokens| - 1], fixed), tokens[|tokens| - 1], fixed)
  }

  /** The elements; with none, the whole content is one element named after the root. */
  function Collected(content: String, p: Parser): seq<Element>
  {
    if |p.elements| == 0 && |content| > 0 then [Element(p.root, "/" + p.root, content)] else p.elements
  }

  /** `parseXMLElements` as written. */
  function ParseAsWritten(content: String, tokens: seq<Token>): seq<Element>
  {
    Collected(content, ParseRun(content, tokens, false))
  }

  /** `parseXMLElements`, each search starting after the element taken before it. */
  function ParseElements(content: String, tokens: seq<Token>): seq<Element>
  {
    Collected(content, ParseRun(content, tokens, true))
  }

  /**
   * The contents occur in `content` in order, without overlapping, the
   * last one ending at or before `upTo`.
   */
  ghost predicate InOrder(content: String, es: seq<Element>, upTo: int)
    decreases |es|
  {
    |es| == 0 ||
    var last := es[|es| - 1].content;
    exists s {:trigger InOrder(content, es[..|es| - 1], s)} :: 0 <= s && s + |last| <= upTo && s + |last| <= |content| &&
      content[s..s + |last|] == last && InOrder(content, es[..|es| - 1], s)
  }

  lemma InOrderWeaken(content: String, es: seq<Element>, upTo: int, upTo': int)
    requires InOrder(content, es, upTo) && upTo <= upTo'
    ensures InOrder(content, es, upTo')
  {
    if |es| > 0 {
      var last := es[|es| - 1].content;
      var s :| 0 <= s && s + |last| <= upTo && s + |last| <= |content| &&
        content[s..s + |last|] == last && InOrder(content, es[..|es| - 1], s);
    }
  }

  lemma InOrderSnoc(content: String, es: seq<Element>, e: Element, s: int, upTo: int)
    requires InOrder(content, es, s)
    requires 0 <= s && s + |e.content| <= upTo && s + |e.content| <= |content| && content[s..s + |e.content|] == e.content
    ensures InOrder(content, es + [e], upTo)
  {
    assert (es + [e])[..|es + [e]| - 1] == es;
  }

  /** A step that does not take an element leaves the elements and the offset alone. */
  lemma ParseStepKeeps(content: String, p: Parser, t: Token, fixed: bool)
    requires p.offset <= |content|
    requires !(t.End? && p.depth == 1 && ExtractElementContent(content, p.current, p.offset) != [])
    ensures ParseStep(content, p, t, fixed).elements == p.elements
    ensures ParseStep(content, p, t, fixed).offset == p.offset
  {
  }

  /** Taking elements from the offset on keeps them in document order. */
  lemma ParseStepInOrder(content: String, p: Parser, t: Token)
    requires p.offset <= |content| && InOrder(content, p.elements, p.offset)
    ensures InOrder(content, ParseStep(content, p, t, true).elements, ParseStep(content, p, t, true).offset)
  {
    var text := ExtractElementContent(content, p.current, p.offset);
    if t.End? && p.depth == 1 && text != [] {
      var found := FindElement(content, p.current, p.offset);
      var (s, e) := found.value;
      var el := Element(p.current, "/" + p.root + "/" + p.current, text);
      assert ParseStep(content, p, t, true) == Parser(p.root, if p.pathLen > 0 then p.pathLen - 1 else p.pathLen, 0, [], e, p.elements + [el]);
      hide ParseStep;
      assert text == content[s..e];
      InOrderWeaken(content, p.elements, p.offset, s);
      InOrderSnoc(content, p.elements, el, s, e);
    } else {
      ParseStepKeeps(content, p, t, true);
    }
  }

  lemma {:induction false} ParseRunInOrder(content: String, tokens: seq<Token>)
    ensures InOrder(content, ParseRun(content, tokens, true).elements, ParseRun(content, tokens, true).offset)
  {
    if |tokens| > 0 {
      ParseRunInOrder(content, tokens[..|tokens| - 1]);
      ParseStepInOrder(content, ParseRun(content, tokens[..|tokens| - 1], true), tokens[|tokens| - 1]);
    }
  }

  /**
   * The elements found are non-empty pieces of the content, in document
   * order and without overlap; with none found, a non-empty document is
   * one element named after the root, and an empty one gives none.
   */
  lemma ParseElementsSound(content: String, tokens: seq<Token>)
    ensures var es := ParseElements(content, tokens);
      (|es| == 0 <==> |content| == 0) &&
      (forall i :: 0 <= i < |es| ==> |es[i].content| > 0) &&
      InOrder(content, es, |content|)
  {
    var p := ParseRun(content, tokens, true);
    ParseRunInOrder(content, tokens);
    InOrderWeaken(content, p.elements, p.offset, |content|);
    ParseRunNonEmpty(content, tokens, true);
    if |p.elements| == 0 && |content| > 0 {
      var es := ParseElements(content, tokens);
      assert es[..0] == [];
      assert InOrder(content, es[..0], 0);
      assert content[0..0 + |content|] == content;
    }
  }

  lemma {:induction false} ParseRunNonEmpty(content: String, tokens: seq<Token>, fixed: bool)
    ensures forall i :: 0 <= i < |ParseRun(content, tokens, fixed).elements| ==> |ParseRun(content, tokens, fixed).elements[i].content| > 0
  {
    if |tokens| > 0 {
      ParseRunNonEmpty(content, tokens[..|tokens| - 1], fixed);
    }
  }

  /** The decoder's tokens for `<rt><a/><a x/></rt>`. */
  const SiblingTokens: seq<Token> := [Start("rt"), Start("a"), End, Start("a"), End, End]

  const Siblings: String := "<rt><a/><a x/></rt>"

  lemma SiblingIndex()
    ensures IndexFrom(Siblings, "<a", 0) == 4
  {
    var d := Siblings;
    assert d[4..6] == "<a";
    assert IndexFrom(d, "<a", 4) == 4;
    assert d[3..5] != "<a" by { assert d[3] == '>'; }
    assert IndexFrom(d, "<a", 3) == 4;
    assert d[2..4] != "<a" by { assert d[2] == 't'; }
    assert IndexFrom(d, "<a", 2) == 4;
    assert d[1..3] != "<a" by { assert d[1] == 'r'; }
    assert IndexFrom(d, "<a", 1) == 4;
    assert d[0..2] != "<a" by { assert d[1] == 'r'; }
  }

  lemma SiblingEnd()
    ensures ElementEnd(Siblings, "a", 4, 4, 0) == 8
  {
    var d := Siblings;
    assert d[5..] == "a/><a x/></rt>";
    assert OpensAt(d, "a", 4);
    assert ElementEnd(d, "a", 4, 6, 1) == 8;
    assert ElementEnd(d, "a", 4, 5, 1) == 8;
    assert d[4] == '<' && d[5] == 'a';
  }

  lemma FirstSibling()
    ensures FindElement(Siblings, "a", 0) == Some((4, 8))
  {
    SiblingIndex();
    SiblingEnd();
    assert Siblings[0..] == Siblings;
  }

  lemma FirstSiblingAgain()
    ensures FindElement(Siblings, "a", 4) == Some((4, 8))
  {
    var t := Siblings[4..];
    assert t == "<a/><a x/></rt>";
    assert IndexFrom(t, "<a", 0) == 0;
    assert t[1..] == "a/><a x/></rt>";
    assert OpensAt(t, "a", 0);
    assert ElementEnd(t, "a", 0, 2, 1) == 4;
    assert ElementEnd(t, "a", 0, 1, 1) == 4;
    assert ElementEnd(t, "a", 0, 0, 0) == 4;
  }

  lemma SecondSibling()
    ensures FindElement(Siblings, "a", 8) == Some((8, 14))
  {
    var u := Siblings[8..];
    assert u == "<a x/></rt>";
    assert IndexFrom(u, "<a", 0) == 0;
    assert u[1..] == "a x/></rt>";
    assert OpensAt(u, "a", 0);
  }

  lemma SiblingSlices()
    ensures Siblings[4..8] == "<a/>" && Siblings[8..14] == "<a x/>"
  {
    assert Siblings[4..] == "<a/><a x/></rt>";
    assert Siblings[4..][..4] == "<a/>";
    assert Siblings[8..] == "<a x/></rt>";
    assert Siblings[8..][..6] == "<a x/>";
  }

  /**
   * Two sibling elements with the same name: the code as written searches
   * for the second one from where the first one starts and takes the first
   * one again; searching from after the first one takes the second.
   */
  lemma SiblingsSameName()
    ensures ParseAsWritten(Siblings, SiblingTokens) ==
      [Element("a", "/rt/a", "<a/>"), Element("a", "/rt/a", "<a/>")]
    ensures ParseElements(Siblings, SiblingTokens) ==
      [Element("a", "/rt/a", "<a/>"), Element("a", "/rt/a", "<a x/>")]
  {
    var d := Siblings;
    FirstSibling();
    FirstSiblingAgain();
    SecondSibling();
    SiblingSlices();
    var a := Element("a", "/rt/a", "<a/>");
    var b := Element("a", "/rt/a", "<a x/>");
    SiblingRun(false, 4, 8, [a, a]);
    SiblingRun(true, 8, 14, [a, b]);
  }

  lemma ParseRunSnoc(content: String, tokens: seq<Token>, t: Token, fixed: bool)
    ensures ParseRun(content, tokens + [t], fixed) == ParseStep(content, ParseRun(content, tokens, fixed), t, fixed)
  {
    assert (tokens + [t])[..|tokens|] == tokens;
  }

  /** Opening the root and one top-level element `a`, then taking it. */
  lemma SiblingTake(content: String, before: seq<Token>, p: Parser, fixed: bool, next: nat, e: Element)
    requires ParseRun(content, before, fixed) == p && p.root == "rt" && p.pathLen == 1 && p.depth == 0
    requires p.offset <= |content| && next <= |content|
    requires ExtractElementContent(content, "a", p.offset) == e.content != []
    requires e == Element("a", "/rt/a", e.content)
    requires next == if fixed then FindElement(content, "a", p.offset).value.1 else p.offset + |e.content|
    ensures ParseRun(content, before + [Start("a"), End], fixed) == Parser("rt", 1, 0, [], next, p.elements + [e])
  {
    hide FindElement, ExtractElementContent;
    assert "/" + "rt" + "/" + "a" == "/rt/a";
    ParseRunSnoc(content, before, Start("a"), fixed);
    ParseRunSnoc(content, before + [Start("a")], End, fixed);
    assert before + [Start("a")] + [End] == before + [Start("a"), End];
  }

  lemma SiblingOpen(content: String, fixed: bool)
    ensures ParseRun(content, [Start("rt")], fixed) == Parser("rt", 1, 0, [], 0, [])
  {
    ParseRunSnoc(content, [], Start("rt"), fixed);
    assert [] + [Start("rt")] == [Start("rt")];
  }

  lemma SiblingClose(content: String, before: seq<Token>, fixed: bool)
    requires ParseRun(content, before, fixed).depth == 0
    ensures ParseRun(content, before + [End], fixed).elements == ParseRun(content, before, fixed).elements
  {
    ParseRunSnoc(content, before, End, fixed);
  }

  /** The parser's elements along `SiblingTokens`, given where the second search starts and what the two searches take. */
  lemma SiblingRun(fixed: bool, second: nat, next: nat, es: seq<Element>)
    requires |es| == 2 && second <= |Siblings| && second == (if fixed then 8 else 4) && next <= |Siblings|
    requires next == if fixed then FindElement(Siblings, "a", second).value.1 else second + |es[1].content|
    requires ExtractElementContent(Siblings, "a", 0) == es[0].content == "<a/>"
    requires FindElement(Siblings, "a", 0) == Some((4, 8))
    requires ExtractElementContent(Siblings, "a", second) == es[1].content != []
    requires es[0] == Element("a", "/rt/a", es[0].content) && es[1] == Element("a", "/rt/a", es[1].content)
    ensures ParseRun(Siblings, SiblingTokens, fixed).elements == es
  {
    hide FindElement, ExtractElementContent, ParseRun, ParseStep;
    var d := Siblings;
    var t1: seq<Token> := [Start("rt")];
    SiblingOpen(d, fixed);
    SiblingTake(d, t1, Parser("rt", 1, 0, [], 0, []), fixed, second, es[0]);
    var t3 := t1 + [Start("a"), End];
    SiblingTake(d, t3, Parser("rt", 1, 0, [], second, [es[0]]), fixed, next, es[1]);
    var t5 := t3 + [Start("a"), End];
    SiblingClose(d, t5, fixed);
    assert t5 + [End] == SiblingTokens;
    assert [es[0]] + [es[1]] == es;
  }


  /** One token of `parseXMLElements`, each search starting after the element taken before it. */
  method Step(content: String, p: Parser, t: Token) returns (q: Parser)
    requires p.offset <= |content|
    ensures q == ParseStep(content, p, t, true)
  {
    q := p;
    match t {
      case Start(n) =>
        if p.root == [] {
          q := p.(root := n, pathLen := p.pathLen + 1);
        } else if p.pathLen == 1 {
          q := p.(current := n, pathLen := p.pathLen + 1, depth := 1);
        } else if p.depth > 0 {
          q := p.(pathLen := p.pathLen + 1, depth := p.depth + 1);
        }
      case End =>
        if p.depth > 0 {
          var depth := p.depth - 1;
          var pathLen := if p.pathLen > 0 then p.pathLen - 1 else p.pathLen;
          q := p.(depth := depth, pathLen := pathLen);
          if depth == 0 {
            var found := LocateElement(content, p.current, p.offset);
            if found.Some? {
              var (s, e) := found.value;
              var element := Element(p.current, "/" + p.root + "/" + p.current, content[s..e]);
              q := Parser(p.root, pathLen, 0, [], e, p.elements + [element]);
            } else {
              q := Parser(p.root, pathLen, 0, [], p.offset, p.elements);
            }
          }
        } else if p.pathLen > 0 {
          q := p.(pathLen := p.pathLen - 1);
        }
    }
  }

  /** `parseXMLElements`, with the search fixed as in `ParseElements`. */
  method ParseXmlElements(content: String, tokens: seq<Token>) returns (elements: seq<Element>)
    ensures elements == ParseElements(content, tokens)
  {
    var p := Parser([], 0, 0, [], 0, []);
    for i := 0 to |tokens|
      invariant p == ParseRun(content, tokens[..i], true)
    {
      assert tokens[..i + 1][..i] == tokens[..i];
      p := Step(content, p, tokens[i]);
    }
    assert tokens[..|tokens|] == tokens;
    elements := p.elements;
    if |elements| == 0 && |content| > 0 {
      elements := [Element(p.root, "/" + p.root, content)];
    }
  }

  // ---------------------------------------------------------------------
  // splitLargeElement, children first

  /** Consecutive child elements gathered into one chunk, and how many they are. */
  datatype Group = Group(text: String, records: nat)

  /** The grouping loop's state: the groups so far, the text being built and its number of children. */
  datatype Grouping = Grouping(done: seq<Group>, cur: String, count: nat)

  /** Closes the group being built when `child` would take it past `maxSize`. */
  function Close(g: Grouping, child: String, maxSize: int): Grouping
  {
    if |g.cur| + |child| > maxSize && |g.cur| > 0 then Grouping(g.done + [Group(g.cur, g.count)], [], 0) else g
  }

  /** One child: close the group first if need be, then add the child to it. */
  function ChildStep(g: Grouping, child: String, maxSize: int): Grouping
  {
    var g' := Close(g, child, maxSize);
    g'.(cur := g'.cur + child, count := g'.count + 1)
  }

  function ChildRun(children: seq<String>, maxSize: int): Grouping
  {
    if |children| == 0 then Grouping([], [], 0)
    else ChildStep(ChildRun(children[..|children| - 1], maxSize), children[|children| - 1], maxSize)
  }

  /** The groups of `splitLargeElement`; a last group with no text is dropped. */
  function ChildGroups(children: seq<String>, maxSize: int): seq<Group>
  {
    var g := ChildRun(children, maxSize);
    if |g.cur| > 0 then g.done + [Group(g.cur, g.count)] else g.done
  }

  function Concat(parts: seq<String>): String
  {
    if |parts| == 0 then [] else Concat(parts[..|parts| - 1]) + parts[|parts| - 1]
  }

  function GroupTexts(groups: seq<Group>): String
  {
    if |groups| == 0 then [] else GroupTexts(groups[..|groups| - 1]) + groups[|groups| - 1].text
  }

  function Records(groups: seq<Group>): int
  {
    if |groups| == 0 then 0 else Records(groups[..|groups| - 1]) + groups[|groups| - 1].records
  }

  /** A group as `splitLargeElement` makes it: some text, at least one child, and within `maxSize` unless it is one child. */
  predicate Fits(gr: Group, children: seq<String>, maxSize: int)
  {
    |gr.text| > 0 && gr.records >= 1 && (|gr.text| <= maxSize || gr.text in children)
  }

  predicate NonEmpty(children: seq<String>)
  {
    forall c :: c in children ==> |c| > 0
  }

  /** A group of two or more children is within `maxSize`. */
  predicate Bounded(gr: Group, maxSize: int)
  {
    gr.records > 1 ==> |gr.text| <= maxSize
  }

  predicate GroupingInv(g: Grouping, children: seq<String>, maxSize: int)
  {
    && GroupTexts(g.done) + g.cur == Concat(children)
    && Records(g.done) + g.count == |children|
    && (forall gr :: gr in g.done ==> Fits(gr, children, maxSize))
    && (|g.cur| == 0 || |g.cur| <= maxSize || g.cur in children)
    && (|g.cur| > 0 ==> g.count >= 1)
    && (NonEmpty(children) ==> (|g.cur| > 0 <==> g.count > 0))
    && (NonEmpty(children) ==> (forall gr :: gr in g.done ==> Bounded(gr, maxSize)) && (g.count > 1 ==> |g.cur| <= maxSize))
  }

  lemma CloseInv(g: Grouping, children: seq<String>, child: String, maxSize: int)
    requires GroupingInv(g, children, maxSize)
    ensures GroupingInv(Close(g, child, maxSize), children, maxSize)
    ensures |Close(g, child, maxSize).cur| > 0 ==> |Close(g, child, maxSize).cur| + |child| <= maxSize
  {
    if |g.cur| + |child| > maxSize && |g.cur| > 0 {
      var done := g.done + [Group(g.cur, g.count)];
      assert done[..|g.done|] == g.done;
      assert GroupTexts(done) == GroupTexts(g.done) + g.cur;
    }
  }

  lemma AddInv(g: Grouping, children: seq<String>, child: String, maxSize: int)
    requires GroupingInv(g, children, maxSize)
    requires |g.cur| > 0 ==> |g.cur| + |child| <= maxSize
    ensures GroupingInv(g.(cur := g.cur + child, count := g.count + 1), children + [child], maxSize)
  {
    var all := children + [child];
    assert all[..|children|] == children;
    assert forall x :: x in children ==> x in all;
    assert Concat(all) == Concat(children) + child;
    if |g.cur| == 0 {
      assert g.cur + child == child;
      assert child in all;
    }
  }

  lemma ChildStepInv(g: Grouping, children: seq<String>, child: String, maxSize: int)
    requires GroupingInv(g, children, maxSize)
    ensures GroupingInv(ChildStep(g, child, maxSize), children + [child], maxSize)
  {
    CloseInv(g, children, child, maxSize);
    AddInv(Close(g, child, maxSize), children, child, maxSize);
  }

  lemma {:induction false} ChildRunInv(children: seq<String>, maxSize: int)
    ensures GroupingInv(ChildRun(children, maxSize), children, maxSize)
    decreases |children|
  {
    if |children| > 0 {
      var init, last := children[..|children| - 1], children[|children| - 1];
      assert init + [last] == children;
      ChildRunInv(init, maxSize);
      ChildStepInv(ChildRun(init, maxSize), init, last, maxSize);
      assert ChildRun(children, maxSize) == ChildStep(ChildRun(init, maxSize), last, maxSize);
    }
  }

  /**
   * The groups hold the children's texts in order and nothing else; each
   * has some text, at least one child, and is within `maxSize` unless it is
   * a single child; with no empty child, every child is counted once and
   * every group of two or more children is within `maxSize`.
   */
  lemma ChildGroupsSound(children: seq<String>, maxSize: int)
    ensures GroupTexts(ChildGroups(children, maxSize)) == Concat(children)
    ensures forall gr :: gr in ChildGroups(children, maxSize) ==> Fits(gr, children, maxSize)
    ensures NonEmpty(children) ==> Records(ChildGroups(children, maxSize)) == |children|
    ensures NonEmpty(children) ==> forall gr :: gr in ChildGroups(children, maxSize) ==> Bounded(gr, maxSize)
  {
    var g := ChildRun(children, maxSize);
    ChildRunInv(children, maxSize);
    if |g.cur| > 0 {
      var r := g.done + [Group(g.cur, g.count)];
      assert r[..|g.done|] == g.done;
    }
  }

  /** The grouping loop of `splitLargeElement`. */
  method GroupChildren(children: seq<String>, maxSize: int) returns (groups: seq<Group>)
    ensures groups == ChildGroups(children, maxSize)
  {
    groups := [];
    var cur: String := [];
    var count := 0;
    for i := 0 to |children|
      invariant Grouping(groups, cur, count) == ChildRun(children[..i], maxSize)
    {
      assert children[..i + 1][..i] == children[..i];
      var child := children[i];
      if |cur| + |child| > maxSize && |cur| > 0 {
        groups := groups + [Group(cur, count)];
        cur := [];
        count := 0;
      }
      cur := cur + child;
      count := count + 1;
    }
    assert children[..|children|] == children;
    if |cur| > 0 {
      groups := groups + [Group(cur, count)];
    }
  }

  // ---------------------------------------------------------------------
  // Chunk

  /** `StructuredMetadata` with the chunk type: `records` is `RecordCount`, 0 where the code leaves it unset. */
  datatype Meta = Meta(chunkType: ChunkType, name: String, path: String, records: int)

  function ElementMeta(e: Element, records: int): Meta
  {
    Meta(StructuredChunk, e.name, e.path, records)
  }

  /** Groups laid end to end from `offset`, each chunk counting its children. */
  function LayGroups(groups: seq<Group>, offset: int, e: Element): (r: seq<Chunk<Meta>>)
    ensures |r| == |groups|
  {
    if |groups| == 0 then []
    else
      var head := Chunks.Chunk(0, groups[0].text, offset, offset + |groups[0].text|, ElementMeta(e, groups[0].records));
      [head] + LayGroups(groups[1..], offset + |groups[0].text|, e)
  }

  /** `splitLargeElement`: by child elements when there are two or more, else by lines. */
  function LargeChunks(e: Element, children: seq<String>, maxSize: int, offset: int): seq<Chunk<Meta>>
  {
    if |children| > 1 then LayGroups(ChildGroups(children, maxSize), offset, e)
    else Lay(Packing.LinePieces(e.content, maxSize), offset, ElementMeta(e, 0))
  }

  /** The chunks of one element: split when too large, dropped when blank. */
  function ElementChunks(e: Element, children: seq<String>, maxSize: int, offset: int): seq<Chunk<Meta>>
  {
    if |e.content| > maxSize then LargeChunks(e, children, maxSize, offset)
    else if TrimSpace(e.content) != [] then [Chunks.Chunk(0, e.content, offset, offset + |e.content|, ElementMeta(e, 0))]
    else []
  }

  /**
   * The element loop of `Chunk`; each element moves the offset by its
   * length. `childrenOf` stands for `extractChildElements`, the contents of
   * an element's children as the decoder writes them back out.
   */
  function Chunked(es: seq<Element>, childrenOf: Element -> seq<String>, maxSize: int, offset: int): seq<Chunk<Meta>>
  {
    if |es| == 0 then []
    else ElementChunks(es[0], childrenOf(es[0]), maxSize, offset) + Chunked(es[1..], childrenOf, maxSize, offset + |es[0].content|)
  }

  /** `Chunk`, over the decoder's tokens for `content`. */
  function ChunkXml(content: String, tokens: seq<Token>, childrenOf: Element -> seq<String>, maxSize: int): ChunkResult<Meta>
  {
    if |content| == 0 then EmptyResult(Name)
    else
      var chunks := Numbered(Chunked(ParseElements(content, tokens), childrenOf, Limit(maxSize), 0));
      ChunkResult(chunks, |chunks|, Name, |content|)
  }

  /**
   * A chunk as `Chunk` makes it: non-empty, structured, offsets spanning
   * its text from no earlier than `offset`, and, unless it is a group of
   * children (which `ChildGroupsSound` bounds), within `maxSize` or a
   * single over-long line.
   */
  predicate Good(c: Chunk<Meta>, maxSize: int, offset: int)
  {
    && |c.content| > 0 && c.end - c.start == |c.content| && c.start >= offset
    && c.meta.chunkType == StructuredChunk && c.meta.records >= 0
    && (c.meta.records == 0 ==> Packing.Within(c.content, maxSize))
  }

  /** A chunk of two or more children is within `maxSize`. */
  predicate GroupWithin(c: Chunk<Meta>, maxSize: int)
  {
    c.meta.records > 1 ==> |c.content| <= maxSize
  }

  /** `extractChildElements` writes every child out from its opening `<`, so no child text is empty. */
  predicate ChildrenNonEmpty(es: seq<Element>, childrenOf: Element -> seq<String>)
  {
    forall e :: e in es ==> NonEmpty(childrenOf(e))
  }

  predicate AllGood(chunks: seq<Chunk<Meta>>, maxSize: int, offset: int)
  {
    forall c :: c in chunks ==> Good(c, maxSize, offset)
  }

  lemma AllGoodJoin(a: seq<Chunk<Meta>>, b: seq<Chunk<Meta>>, maxSize: int, offset: int, next: int)
    requires AllGood(a, maxSize, offset) && AllGood(b, maxSize, next) && next >= offset
    ensures AllGood(a + b, maxSize, offset)
  {
  }

  /** Laid groups are contiguous from `offset`, in order, each chunk with its group's text and child count. */
  lemma {:induction false} LayGroupsSound(groups: seq<Group>, offset: int, e: Element)
    ensures var r := LayGroups(groups, offset, e);
      && Contiguous(r) && Widths(r)
      && (|r| > 0 ==> r[0].start == offset)
      && forall k :: 0 <= k < |r| ==> r[k].content == groups[k].text && r[k].start >= offset && r[k].meta == ElementMeta(e, groups[k].records)
    decreases |groups|
  {
    if |groups| > 0 {
      LayGroupsSound(groups[1..], offset + |groups[0].text|, e);
      var r := LayGroups(groups, offset, e);
      var rest := LayGroups(groups[1..], offset + |groups[0].text|, e);
      assert forall k :: 1 <= k < |r| ==> r[k] == rest[k - 1];
      forall k | 0 < k < |r| ensures Follows(r, k) {
        if k > 1 {
          assert Follows(rest, k - 1);
        }
      }
    }
  }

  lemma LargeChunksGood(e: Element, children: seq<String>, maxSize: int, offset: int)
    ensures AllGood(LargeChunks(e, children, maxSize, offset), maxSize, offset)
    ensures Contiguous(LargeChunks(e, children, maxSize, offset))
    ensures NonEmpty(children) ==> forall c :: c in LargeChunks(e, children, maxSize, offset) ==> GroupWithin(c, maxSize)
  {
    if |children| > 1 {
      var groups := ChildGroups(children, maxSize);
      ChildGroupsSound(children, maxSize);
      LayGroupsSound(groups, offset, e);
      var r := LayGroups(groups, offset, e);
      forall c | c in r ensures Good(c, maxSize, offset) && (NonEmpty(children) ==> GroupWithin(c, maxSize)) {
        var k :| 0 <= k < |r| && r[k] == c;
        assert groups[k] in groups;
      }
    } else {
      var pieces := Packing.LinePieces(e.content, maxSize);
      Packing.LinePiecesSound(e.content, maxSize);
      LaySound(pieces, offset, ElementMeta(e, 0));
      var r := Lay(pieces, offset, ElementMeta(e, 0));
      forall c | c in r ensures Good(c, maxSize, offset) {
        var k :| 0 <= k < |r| && r[k] == c;
        assert pieces[k] in pieces;
      }
    }
  }

  lemma ElementChunksGood(e: Element, children: seq<String>, maxSize: int, offset: int)
    ensures AllGood(ElementChunks(e, children, maxSize, offset), maxSize, offset)
    ensures NonEmpty(children) ==> forall c :: c in ElementChunks(e, children, maxSize, offset) ==> GroupWithin(c, maxSize)
  {
    hide LargeChunks, TrimSpace;
    if |e.content| > maxSize {
      LargeChunksGood(e, children, maxSize, offset);
    } else if TrimSpace(e.content) != [] {
      assert |e.content| > 0;
    }
  }

  lemma {:induction false} ChunkedGood(es: seq<Element>, childrenOf: Element -> seq<String>, maxSize: int, offset: int)
    ensures AllGood(Chunked(es, childrenOf, maxSize, offset), maxSize, offset)
    ensures ChildrenNonEmpty(es, childrenOf) ==> forall c :: c in Chunked(es, childrenOf, maxSize, offset) ==> GroupWithin(c, maxSize)
    decreases |es|
  {
    hide ElementChunks, Good, GroupWithin;
    if |es| > 0 {
      var next := offset + |es[0].content|;
      ElementChunksGood(es[0], childrenOf(es[0]), maxSize, offset);
      ChunkedGood(es[1..], childrenOf, maxSize, next);
      AllGoodJoin(ElementChunks(es[0], childrenOf(es[0]), maxSize, offset), Chunked(es[1..], childrenOf, maxSize, next), maxSize, offset, next);
      if ChildrenNonEmpty(es, childrenOf) {
        assert es[0] in es;
        assert ChildrenNonEmpty(es[1..], childrenOf) by {
          forall e | e in es[1..] ensures NonEmpty(childrenOf(e)) {
            assert e in es;
          }
        }
      }
    }
  }

  /**
   * Empty content gives no chunks; otherwise the chunks are numbered 0, 1,
   * ... and every one is non-empty and structured, with offsets spanning
   * its text, within the limit or a single over-long line unless it is a
   * group of children; when no child text is empty, a group of two or
   * more children is within the limit too.
   */
  lemma ChunkXmlSound(content: String, tokens: seq<Token>, childrenOf: Element -> seq<String>, maxSize: int)
    ensures |content| == 0 ==> ChunkXml(content, tokens, childrenOf, maxSize) == EmptyResult(Name)
    ensures var r := ChunkXml(content, tokens, childrenOf, maxSize);
      && r.totalChunks == |r.chunks| && r.originalSize == |content| && r.chunkerUsed == Name
      && Sequential(r.chunks)
      && forall k :: 0 <= k < |r.chunks| ==> Good(r.chunks[k], Limit(maxSize), 0)
    ensures var r := ChunkXml(content, tokens, childrenOf, maxSize);
      ChildrenNonEmpty(ParseElements(content, tokens), childrenOf) ==>
        forall k :: 0 <= k < |r.chunks| ==> GroupWithin(r.chunks[k], Limit(maxSize))
  {
    if |content| > 0 {
      var es := ParseElements(content, tokens);
      ChunkedGood(es, childrenOf, Limit(maxSize), 0);
      hide Chunked, ParseElements;
      var raw := Chunked(es, childrenOf, Limit(maxSize), 0);
      assert forall k :: 0 <= k < |raw| ==> raw[k] in raw && Good(raw[k], Limit(maxSize), 0);
      if ChildrenNonEmpty(es, childrenOf) {
        assert forall k :: 0 <= k < |raw| ==> raw[k] in raw && GroupWithin(raw[k], Limit(maxSize));
      }
    }
  }

  // ---------------------------------------------------------------------
  // The chunking loops

  /** The chunks of `groups` laid from `offset`. */
  lemma LayGroupsStep(groups: seq<Group>, i: int, at: int, e: Element)
    requires 0 <= i < |groups|
    ensures LayGroups(groups[i..], at, e) ==
      [Chunks.Chunk(0, groups[i].text, at, at + |groups[i].text|, ElementMeta(e, groups[i].records))] + LayGroups(groups[i + 1..], at + |groups[i].text|, e)
  {
    assert groups[i..][1..] == groups[i + 1..];
  }

  method LayGroupsOut(groups: seq<Group>, offset: int, e: Element) returns (chunks: seq<Chunk<Meta>>)
    ensures chunks == LayGroups(groups, offset, e)
  {
    assert groups[0..] == groups && groups[|groups|..] == [];
    hide LayGroups;
    chunks := [];
    var at := offset;
    for i := 0 to |groups|
      invariant chunks + LayGroups(groups[i..], at, e) == LayGroups(groups, offset, e)
    {
      LayGroupsStep(groups, i, at, e);
      var text := groups[i].text;
      chunks := chunks + [Chunks.Chunk(0, text, at, at + |text|, ElementMeta(e, groups[i].records))];
      at := at + |text|;
    }
  }

  /** `splitLargeElement`. */
  method SplitLargeElement(e: Element, children: seq<String>, maxSize: int, offset: int) returns (chunks: seq<Chunk<Meta>>)
    ensures chunks == LargeChunks(e, children, maxSize, offset)
  {
    if |children| > 1 {
      var groups := GroupChildren(children, maxSize);
      chunks := LayGroupsOut(groups, offset, e);
    } else {
      var pieces := Packing.SplitLines(e.content, maxSize);
      chunks := LayOut(pieces, offset, ElementMeta(e, 0));
    }
  }

  /** The chunks of one element of `Chunk`. */
  method ChunkElement(e: Element, children: seq<String>, maxSize: int, offset: int) returns (sub: seq<Chunk<Meta>>)
    ensures sub == ElementChunks(e, children, maxSize, offset)
  {
    if |e.content| > maxSize {
      sub := SplitLargeElement(e, children, maxSize, offset);
    } else if TrimSpace(e.content) != [] {
      sub := [Chunks.Chunk(0, e.content, offset, offset + |e.content|, ElementMeta(e, 0))];
    } else {
      sub := [];
    }
  }

  lemma ChunkedEmpty(es: seq<Element>, childrenOf: Element -> seq<String>, maxSize: int)
    ensures forall offset :: Chunked(es[|es|..], childrenOf, maxSize, offset) == []
  {
  }

  lemma ChunkedCons(es: seq<Element>, i: int, childrenOf: Element -> seq<String>, maxSize: int, offset: int)
    requires 0 <= i < |es|
    ensures Chunked(es[i..], childrenOf, maxSize, offset)
      == ElementChunks(es[i], childrenOf(es[i]), maxSize, offset) + Chunked(es[i + 1..], childrenOf, maxSize, offset + |es[i].content|)
  {
    hide ElementChunks;
    assert es[i..][1..] == es[i + 1..];
  }

  /** `Chunk`. */
  method Chunk(content: String, tokens: seq<Token>, childrenOf: Element -> seq<String>, maxSize: int) returns (r: ChunkResult<Meta>)
    ensures r == ChunkXml(content, tokens, childrenOf, maxSize)
  {
    hide ElementChunks, Chunked, Numbered, ParseElements;
    if |content| == 0 {
      return EmptyResult(Name);
    }
    var m := Limit(maxSize);
    var elements := ParseXmlElements(content, tokens);
    ChunkedEmpty(elements, childrenOf, m);
    var chunks: seq<Chunk<Meta>> := [];
    ghost var raw: seq<Chunk<Meta>> := [];
    var offset := 0;
    for i := 0 to |elements|
      invariant chunks == Numbered(raw)
      invariant raw + Chunked(elements[i..], childrenOf, m, offset) == Chunked(elements, childrenOf, m, 0)
    {
      ChunkedCons(elements, i, childrenOf, m, offset);
      var e := elements[i];
      var sub := ChunkElement(e, childrenOf(e), m, offset);
      chunks := AppendNumbered(chunks, raw, sub);
      raw := raw + sub;
      offset := offset + |e.content|;
    }
    assert raw == Chunked(elements, childrenOf, m, 0);
    r := ChunkResult(chunks, |chunks|, Name, |content|);
  }
}
