/**
 * String literals for the graph database's Cypher queries: quote and
 * backslash escaping, ASCII lower-casing for matching, and array literals
 * of quoted strings.
 */
module Cypher {
  import opened Text
  import opened Wrappers

  /** The escaped form of one character. */
  function EscapeChar(c: char): String
  {
    if c == '\'' then "\\'" else if c == '\\' then "\\\\" else [c]
  }

  /** What `escapeString` returns, character by character. */
  function Escape(s: String): String
  {
    if |s| == 0 then [] else EscapeChar(s[0]) + Escape(s[1..])
  }

  lemma {:induction false} EscapeAppend(a: String, b: String)
    ensures Escape(a + b) == Escape(a) + Escape(b)
    decreases |a|
  {
    if |a| > 0 {
      assert (a + b)[1..] == a[1..] + b;
      EscapeAppend(a[1..], b);
    } else {
      assert a + b == b;
    }
  }

  /** `escapeString`: the loop that grows the result one character at a time. */
  method EscapeString(s: String) returns (r: String)
    ensures r == Escape(s)
  {
    r := [];
    var i := 0;
    while i < |s|
      invariant 0 <= i <= |s|
      invariant r == Escape(s[..i])
    {
      var c := s[i];
      if c == '\'' {
        r := r + "\\'";
      } else if c == '\\' {
        r := r + "\\\\";
      } else {
        r := r + [c];
      }
      EscapeAppend(s[..i], [c]);
      assert s[..i + 1] == s[..i] + [c];
      assert Escape([c]) == EscapeChar(c);
      i := i + 1;
    }
    assert s[..i] == s;
  }

  predicate NeedsEscape(c: char)
  {
    c == '\'' || c == '\\'
  }

  function CountNeedsEscape(s: String): nat
  {
    if |s| == 0 then 0 else (if NeedsEscape(s[0]) then 1 else 0) + CountNeedsEscape(s[1..])
  }

  /** Each quote and backslash gains exactly one character; nothing else changes length. */
  lemma {:induction false} EscapeLength(s: String)
    ensures |Escape(s)| == |s| + CountNeedsEscape(s)
  {
    if |s| > 0 {
      EscapeLength(s[1..]);
    }
  }

  /** A string with no quote and no backslash is its own escape. */
  lemma {:induction false} EscapeIdentity(s: String)
    requires forall i :: 0 <= i < |s| ==> !NeedsEscape(s[i])
    ensures Escape(s) == s
  {
    if |s| > 0 {
      EscapeIdentity(s[1..]);
      assert s == [s[0]] + s[1..];
    }
  }

  /**
   * Reading a quoted literal's body: the characters up to the first quote
   * that no backslash protects, with each backslash dropped before the
   * character it protects; `None` when the literal never closes.
   */
  function ReadQuoted(s: String): (r: Option<(String, String)>)
    ensures r.Some? ==> |r.value.1| < |s|
    decreases |s|
  {
    if |s| == 0 then None
    else if s[0] == '\'' then Some(([], s[1..]))
    else if s[0] == '\\' then
      if |s| < 2 then None
      else match ReadQuoted(s[2..])
        case None => None
        case Some((body, rest)) => Some(([s[1]] + body, rest))
    else match ReadQuoted(s[1..])
      case None => None
      case Some((body, rest)) => Some(([s[0]] + body, rest))
  }

  /** The escaped text followed by a closing quote reads back as the original. */
  lemma {:induction false} ReadEscaped(x: String, rest: String)
    ensures ReadQuoted(Escape(x) + "'" + rest) == Some((x, rest))
    decreases |x|
  {
    if |x| == 0 {
      assert Escape(x) + "'" + rest == ['\''] + rest;
    } else {
      var c := x[0];
      var t := Escape(x[1..]) + "'" + rest;
      var u := EscapeChar(c) + t;
      assert ReadQuoted(t) == Some((x[1..], rest)) by {
        ReadEscaped(x[1..], rest);
      }
      assert Escape(x) + "'" + rest == u;
      if NeedsEscape(c) {
        assert u[0] == '\\' && u[1] == c && u[2..] == t;
        ReadBackslash(u, t, x[1..], rest);
      } else {
        assert u[0] == c && u[1..] == t;
        ReadPlain(u, t, x[1..], rest);
      }
      assert [c] + x[1..] == x;
    }
  }

  lemma ReadBackslash(u: String, t: String, body: String, rest: String)
    requires |u| >= 2 && u[0] == '\\' && u[2..] == t
    requires ReadQuoted(t) == Some((body, rest))
    ensures ReadQuoted(u) == Some(([u[1]] + body, rest))
  {
  }

  lemma ReadPlain(u: String, t: String, body: String, rest: String)
    requires |u| >= 1 && u[0] != '\'' && u[0] != '\\' && u[1..] == t
    requires ReadQuoted(t) == Some((body, rest))
    ensures ReadQuoted(u) == Some(([u[0]] + body, rest))
  {
  }

  /** `normalizeString`: A–Z lowered, every other character kept. */
  method NormalizeString(s: String) returns (r: String)
    ensures r == ToLower(s)
  {
    r := [];
    var i := 0;
    while i < |s|
      invariant 0 <= i <= |s|
      invariant r == ToLower(s[..i])
    {
      var c := s[i];
      if 'A' <= c <= 'Z' {
        r := r + [(c as int + 32) as char];
      } else {
        r := r + [c];
      }
      i := i + 1;
    }
    assert s[..i] == s;
  }

  /** Normalising twice is normalising once, and only A–Z change. */
  lemma NormalizeIdempotent(s: String)
    ensures ToLower(ToLower(s)) == ToLower(s)
    ensures forall i :: 0 <= i < |s| ==> (ToLower(s)[i] != s[i] <==> 'A' <= s[i] <= 'Z')
  {
    assert forall i :: 0 <= i < |s| ==> LowerChar(LowerChar(s[i])) == LowerChar(s[i]);
  }

  function QuoteItem(s: String): String
  {
    "'" + Escape(s) + "'"
  }

  function QuoteAll(arr: seq<String>): (r: seq<String>)
    ensures |r| == |arr| && forall i :: 0 <= i < |arr| ==> r[i] == QuoteItem(arr[i])
  {
    seq(|arr|, i requires 0 <= i < |arr| => QuoteItem(arr[i]))
  }

  /** The array literal `formatStringArray` builds. */
  function ArrayLiteral(arr: seq<String>): String
  {
    if |arr| == 0 then "[]" else "[" + Join(QuoteAll(arr), ",") + "]"
  }

  /** `formatStringArray`: quote each item, then join with commas inside brackets. */
  method FormatStringArray(arr: seq<String>) returns (r: String)
    ensures r == ArrayLiteral(arr)
  {
    if |arr| == 0 {
      return "[]";
    }
    var parts: seq<String> := [];
    var i := 0;
    while i < |arr|
      invariant 0 <= i <= |arr|
      invariant parts == QuoteAll(arr[..i])
    {
      var e := EscapeString(arr[i]);
      parts := parts + ["'" + e + "'"];
      i := i + 1;
    }
    assert arr[..i] == arr;
    r := "[" + Join(parts, ",") + "]";
  }

  /** The items of `'..'` literals separated by commas and closed by `]`. */
  function ParseItems(s: String): Option<seq<String>>
    decreases |s|
  {
    if |s| == 0 || s[0] != '\'' then None
    else match ReadQuoted(s[1..])
      case None => None
      case Some((item, rest)) =>
        if rest == "]" then Some([item])
        else if |rest| > 0 && rest[0] == ',' then
          match ParseItems(rest[1..])
          case None => None
          case Some(items) => Some([item] + items)
        else None
  }

  /** A reader for the array literals built above. */
  function ParseArrayLiteral(s: String): Option<seq<String>>
  {
    if s == "[]" then Some([])
    else if |s| > 0 && s[0] == '[' then ParseItems(s[1..])
    else None
  }

  lemma ParseLastItem(x: String)
    ensures ParseItems(QuoteItem(x) + "]") == Some([x])
  {
    var s := QuoteItem(x) + "]";
    ReadEscaped(x, "]");
    assert s[0] == '\'' && s[1..] == Escape(x) + "'" + "]";
  }

  lemma ParseNextItem(x: String, tail: String, items: seq<String>)
    requires ParseItems(tail) == Some(items)
    ensures ParseItems(QuoteItem(x) + "," + tail) == Some([x] + items)
  {
    var s := QuoteItem(x) + "," + tail;
    ReadEscaped(x, "," + tail);
    assert s[0] == '\'' && s[1..] == Escape(x) + "'" + ("," + tail);
    assert ("," + tail)[1..] == tail;
  }

  lemma JoinQuotedCons(arr: seq<String>)
    requires |arr| > 1
    ensures Join(QuoteAll(arr), ",") + "]" == QuoteItem(arr[0]) + "," + (Join(QuoteAll(arr[1..]), ",") + "]")
  {
    hide Join, QuoteItem;
    var q := QuoteAll(arr);
    var r := QuoteAll(arr[1..]);
    assert q == [q[0]] + r by {
      assert forall k :: 0 <= k < |r| ==> q[k + 1] == r[k];
    }
    JoinCons(q[0], r, ",");
    var j := Join(r, ",");
    assert (q[0] + "," + j) + "]" == q[0] + "," + (j + "]");
  }

  lemma ParseJoinedStep(arr: seq<String>)
    requires |arr| > 1
    requires ParseItems(Join(QuoteAll(arr[1..]), ",") + "]") == Some(arr[1..])
    ensures ParseItems(Join(QuoteAll(arr), ",") + "]") == Some(arr)
  {
    var tail := Join(QuoteAll(arr[1..]), ",") + "]";
    JoinQuotedCons(arr);
    ParseNextItem(arr[0], tail, arr[1..]);
    assert [arr[0]] + arr[1..] == arr;
  }

  lemma {:induction false} ParseJoinedItems(arr: seq<String>)
    requires |arr| > 0
    ensures ParseItems(Join(QuoteAll(arr), ",") + "]") == Some(arr)
    decreases |arr|
  {
    if |arr| == 1 {
      assert QuoteAll(arr) == [QuoteItem(arr[0])];
      ParseLastItem(arr[0]);
      assert arr == [arr[0]];
    } else {
      ParseJoinedItems(arr[1..]);
      ParseJoinedStep(arr);
    }
  }

  /** Every array literal reads back as the strings it was built from. */
  lemma ArrayLiteralRoundTrip(arr: seq<String>)
    ensures ParseArrayLiteral(ArrayLiteral(arr)) == Some(arr)
  {
    if |arr| > 0 {
      var s := ArrayLiteral(arr);
      ParseJoinedItems(arr);
      assert s[1..] == Join(QuoteAll(arr), ",") + "]";
      assert s != "[]" by {
        JoinLength(QuoteAll(arr));
      }
    }
  }

  /** A join of quoted items is at least as long as its first item. */
  lemma {:induction false} JoinLength(parts: seq<String>)
    requires |parts| > 0
    ensures |Join(parts, ",")| >= |parts[0]|
    decreases |parts|
  {
    if |parts| > 1 {
      JoinLength(parts[..|parts| - 1]);
    }
  }
}
