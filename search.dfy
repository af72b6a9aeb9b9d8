/**
 * The helpers of the `search_memory` tool: the clamp on its numeric
 * arguments, the path-prefix and extension filters, the sorted echo of the
 * extension sets, the snippet cut from a file, the size of the candidate
 * pool and the loop that filters and ranks the hits.
 */
module Search {
  import opened Text
  import opened Wrappers
  import Paths

  const DefaultTopK := 10
  const MaxTopK := 50
  const DefaultSnippetMaxChars := 400
  const MaxSnippetMaxChars := 2000
  const MinCandidateK := 100
  const MaxCandidateK := 500

  /** `clampInt`: below `minV` gives `minV`, else above `maxV` gives `maxV`, else `v`. */
  function ClampInt(v: int, minV: int, maxV: int): (r: int)
    ensures minV <= maxV ==> minV <= r <= maxV
    ensures minV <= v <= maxV ==> r == v
    ensures v < minV ==> r == minV
    ensures minV <= v && maxV < v ==> r == maxV
  {
    if v < minV then minV else if v > maxV then maxV else v
  }

  /** Clamping twice to one range changes nothing more. */
  lemma ClampIdempotent(v: int, minV: int, maxV: int)
    requires minV <= maxV
    ensures ClampInt(ClampInt(v, minV, maxV), minV, maxV) == ClampInt(v, minV, maxV)
  {
  }

  // ---------------------------------------------------------------------
  // Path prefix

  /**
   * `hasPathPrefix` over the paths as `filepath.Clean` leaves them;
   * `clean` is that function.
   */
  predicate HasPathPrefix(path: String, prefix: String, clean: String -> String)
  {
    var p, q := clean(path), clean(prefix);
    if p == q then true
    else if q == [Paths.Sep] then HasPrefix(p, [Paths.Sep])
    else HasPrefix(p, q + [Paths.Sep])
  }

  /**
   * Once cleaned, a path has the prefix exactly when it lies under it, or
   * the prefix is the root and the path is absolute.
   */
  lemma HasPathPrefixUnder(path: String, prefix: String, clean: String -> String)
    ensures clean(prefix) != [Paths.Sep] ==> (HasPathPrefix(path, prefix, clean) <==> Paths.Under(clean(path), clean(prefix)))
    ensures clean(prefix) == [Paths.Sep] ==> (HasPathPrefix(path, prefix, clean) <==> HasPrefix(clean(path), [Paths.Sep]))
  {
  }

  /** A path never has as prefix a sibling whose name it merely starts with. */
  lemma SiblingIsNoPrefix(clean: String -> String)
    requires clean("/a/bc") == "/a/bc" && clean("/a/b") == "/a/b"
    ensures !HasPathPrefix("/a/bc", "/a/b", clean)
    ensures HasPathPrefix("/a/b/c", "/a/b", clean) || clean("/a/b/c") != "/a/b/c"
  {
    assert "/a/b" + [Paths.Sep] == "/a/b/";
    assert "/a/bc"[..5] == "/a/bc" != "/a/b/";
    if clean("/a/b/c") == "/a/b/c" {
      assert "/a/b/c"[..5] == "/a/b/";
    }
  }

  // ---------------------------------------------------------------------
  // Extension sets

  /** A filter key: trimmed, lower-cased and dot-prefixed. */
  function ExtKey(raw: String): (key: String)
    requires !IsBlank(raw)
    ensures |key| > 0 && key[0] == '.' && ToLower(key) == key
    ensures key == ToLower(TrimSpace(raw)) || key == "." + ToLower(TrimSpace(raw))
    ensures HasPrefix(ToLower(TrimSpace(raw)), ".") <==> key == ToLower(TrimSpace(raw))
  {
    var ext := ToLower(TrimSpace(raw));
    LowerTwice(TrimSpace(raw));
    if HasPrefix(ext, ".") then ext
    else
      assert ToLower("." + ext) == "." + ToLower(ext);
      "." + ext
  }

  /** Some value trims to the empty string. */
  predicate AnyBlank(values: seq<String>)
  {
    exists k :: 0 <= k < |values| && IsBlank(values[k])
  }

  /**
   * `normalizeExtensionSet`: an error when any value is blank, otherwise
   * the set of the values' keys.
   */
  method NormalizeExtensionSet(values: seq<String>) returns (r: Result<set<String>>)
    ensures r.Err? <==> AnyBlank(values)
    ensures r.Err? ==> r.error == "extension values must not be empty"
    ensures r.Ok? ==> r.value == set k | 0 <= k < |values| :: ExtKey(values[k])
  {
    hide ExtKey, TrimSpace;
    var s: set<String> := {};
    for i := 0 to |values|
      invariant !AnyBlank(values[..i])
      invariant s == set k | 0 <= k < i :: ExtKey(values[k])
    {
      if IsBlank(values[i]) {
        assert IsBlank(values[..i + 1][i]);
        return Err("extension values must not be empty");
      }
      s := s + {ExtKey(values[i])};
      assert forall k :: 0 <= k < i + 1 ==> values[..i + 1][k] == values[k];
    }
    assert values[..|values|] == values;
    return Ok(s);
  }

  // ---------------------------------------------------------------------
  // Sorted keys

  /** Go's string order: byte by byte, a proper prefix first. */
  predicate Below(a: String, b: String)
    decreases |a|
  {
    if |a| == 0 then |b| > 0
    else |b| > 0 && (a[0] < b[0] || (a[0] == b[0] && Below(a[1..], b[1..])))
  }

  lemma {:induction false} BelowIrreflexive(a: String)
    ensures !Below(a, a)
    decreases |a|
  {
    if |a| > 0 {
      BelowIrreflexive(a[1..]);
    }
  }

  lemma {:induction false} BelowTransitive(a: String, b: String, c: String)
    requires Below(a, b) && Below(b, c)
    ensures Below(a, c)
    decreases |a|
  {
    if |a| > 0 && a[0] == b[0] && b[0] == c[0] {
      BelowTransitive(a[1..], b[1..], c[1..]);
    }
  }

  lemma {:induction false} BelowTotal(a: String, b: String)
    requires a != b
    ensures Below(a, b) || Below(b, a)
    decreases |a|
  {
    if |a| > 0 && |b| > 0 && a[0] == b[0] {
      assert a == [a[0]] + a[1..] && b == [b[0]] + b[1..];
      BelowTotal(a[1..], b[1..]);
    }
  }

  /** Each key comes before every later one. */
  predicate Ascending(keys: seq<String>)
  {
    forall i, j :: 0 <= i < j < |keys| ==> Below(keys[i], keys[j])
  }

  /** `m` is the least member of `s`. */
  predicate Least(m: String, s: set<String>)
  {
    m in s && forall y :: y in s && y != m ==> Below(m, y)
  }

  lemma {:induction false} HasLeast(s: set<String>)
    requires s != {}
    ensures exists m :: Least(m, s)
    decreases |s|
  {
    var x :| x in s;
    if s != {x} {
      var rest := s - {x};
      HasLeast(rest);
      var m :| Least(m, rest);
      if Below(m, x) {
        forall y | y in s && y != m
          ensures Below(m, y)
        {
        }
        assert Least(m, s);
      } else {
        BelowTotal(m, x);
        forall y | y in s && y != x
          ensures Below(x, y)
        {
          if y != m {
            BelowTransitive(x, m, y);
          }
        }
        assert Least(x, s);
      }
    } else {
      assert Least(x, s);
    }
  }

  /** The head of an ascending list comes before each of its other members, which form the tail. */
  lemma AscendingHead(a: seq<String>)
    requires Ascending(a) && |a| > 0
    ensures forall y :: y in a ==> y == a[0] || Below(a[0], y)
    ensures forall y :: y in a[1..] <==> y in a && y != a[0]
  {
    forall y | y in a[1..]
      ensures Below(a[0], y) && y != a[0]
    {
      var i :| 0 <= i < |a[1..]| && a[1..][i] == y;
      assert a[i + 1] == y;
      BelowIrreflexive(a[0]);
    }
    assert a == [a[0]] + a[1..];
  }

  lemma SameMembersEmpty(a: seq<String>, b: seq<String>)
    requires forall x :: x in a <==> x in b
    ensures |a| == 0 <==> |b| == 0
  {
    if |a| > 0 {
      assert a[0] in a;
    }
    if |b| > 0 {
      assert b[0] in b;
    }
  }

  /** Two ascending key lists with the same members are the same list. */
  lemma {:induction false} AscendingUnique(a: seq<String>, b: seq<String>)
    requires Ascending(a) && Ascending(b)
    requires forall x :: x in a <==> x in b
    ensures a == b
    decreases |a|
  {
    SameMembersEmpty(a, b);
    if |a| > 0 {
      assert a[0] in a && b[0] in b;
      AscendingHead(a);
      AscendingHead(b);
      if a[0] != b[0] {
        BelowTransitive(a[0], b[0], a[0]);
        BelowIrreflexive(a[0]);
      }
      assert Ascending(a[1..]) && Ascending(b[1..]);
      AscendingUnique(a[1..], b[1..]);
      assert a == [a[0]] + a[1..] && b == [b[0]] + b[1..];
    }
  }

  /**
   * `sortedSetKeys`: nothing for an empty set, otherwise its keys in
   * ascending order, each once. The keys are taken least first, which gives
   * the one ascending list of them, as `sort.Strings` does.
   */
  method SortedSetKeys(s: set<String>) returns (out: seq<String>)
    ensures |s| == 0 ==> out == []
    ensures Ascending(out) && |out| == |s|
    ensures forall x :: x in out <==> x in s
  {
    out := [];
    var rest := s;
    while rest != {}
      invariant Ascending(out)
      invariant forall x :: x in s <==> x in out || x in rest
      invariant forall x :: x in out ==> x !in rest
      invariant forall i, y :: 0 <= i < |out| && y in rest ==> Below(out[i], y)
      invariant |out| + |rest| == |s|
      decreases |rest|
    {
      HasLeast(rest);
      var m :| Least(m, rest);
      out := out + [m];
      rest := rest - {m};
    }
    assert forall x :: x in s <==> x in out;
    assert |s| == |out| by {
      DistinctCount(out, s);
    }
  }

  /** An ascending list has no repeats, so it is as long as the set of its members. */
  lemma {:induction false} DistinctCount(out: seq<String>, s: set<String>)
    requires Ascending(out) && forall x :: x in out <==> x in s
    ensures |out| == |s|
    decreases |out|
  {
    if |out| > 0 {
      var last := out[|out| - 1];
      var init := out[..|out| - 1];
      assert last !in init by {
        if last in init {
          var i :| 0 <= i < |init| && init[i] == last;
          assert Below(out[i], out[|out| - 1]);
          BelowIrreflexive(last);
        }
      }
      assert forall x :: x in init <==> x in s - {last};
      DistinctCount(init, s - {last});
    }
  }

  // ---------------------------------------------------------------------
  // Snippets

  /**
   * The snippet of `content` between the byte offsets `start` and `end`:
   * negative `start` is taken as 0 and `end` before it as `start`; a start
   * past the end of the content, or an empty range, is an error; at most
   * `maxChars` characters are kept, with the flag saying whether any were cut.
   */
  function Snippet(content: String, start: int, end: int, maxChars: int): (r: Result<(String, bool)>)
    requires maxChars >= 0
    ensures var s := if start < 0 then 0 else start;
      var e := if end < s then s else if end > |content| then |content| else end;
      && (s > |content| ==> r == Err("chunk start offset out of range"))
      && (s <= |content| && s == e ==> r == Err("empty snippet range"))
      && (r.Ok? ==>
            && s < e && HasPrefix(content[s..e], r.value.0)
            && |r.value.0| == (if e - s > maxChars then maxChars else e - s)
            && (r.value.1 <==> |r.value.0| < e - s))
      && (s < e <= |content| ==> r.Ok?)
  {
    var s := if start < 0 then 0 else start;
    var e := if end < s then s else end;
    if s > |content| then Err("chunk start offset out of range")
    else
      var e := if e > |content| then |content| else e;
      if s == e then Err("empty snippet range")
      else
        var text := content[s..e];
        if |text| > maxChars then Ok((text[..maxChars], true)) else Ok((text, false))
  }

  /**
   * `extractSnippet`: the file comes from the cache, or is read with `read`
   * (`os.ReadFile`, `None` for a failed read) and then cached.
   */
  method ExtractSnippet(cache: map<String, String>, read: String -> Option<String>, path: String, start: int, end: int, maxChars: int)
    returns (r: Result<(String, bool)>, cache': map<String, String>)
    requires maxChars >= 0
    ensures path in cache ==> cache' == cache && r == Snippet(cache[path], start, end, maxChars)
    ensures path !in cache && read(path).None? ==> cache' == cache && r == Err("failed to read file")
    ensures path !in cache && read(path).Some? ==>
      cache' == cache[path := read(path).value] && r == Snippet(read(path).value, start, end, maxChars)
  {
    cache' := cache;
    var content: String;
    if path in cache {
      content := cache[path];
    } else {
      var data := read(path);
      if data.None? {
        return Err("failed to read file"), cache;
      }
      content := data.value;
      cache' := cache[path := content];
    }
    var s := start;
    if s < 0 {
      s := 0;
    }
    var e := end;
    if e < s {
      e := s;
    }
    if s > |content| {
      return Err("chunk start offset out of range"), cache';
    }
    if e > |content| {
      e := |content|;
    }
    if s == e {
      return Err("empty snippet range"), cache';
    }
    var text := content[s..e];
    if |text| > maxChars {
      return Ok((text[..maxChars], true)), cache';
    }
    r := Ok((text, false));
  }

  /** A cache that holds what `read` returns for each of its paths. */
  predicate Faithful(cache: map<String, String>, read: String -> Option<String>)
  {
    forall p :: p in cache ==> read(p) == Some(cache[p])
  }

  /**
   * With a faithful cache the snippet is the one a fresh read gives, and
   * the cache stays faithful: caching changes nothing that is returned.
   */
  lemma CacheTransparent(cache: map<String, String>, read: String -> Option<String>, path: String, start: int, end: int, maxChars: int)
    requires maxChars >= 0 && Faithful(cache, read)
    ensures read(path).Some? ==> path !in cache || cache[path] == read(path).value
    ensures read(path).Some? ==> Faithful(cache[path := read(path).value], read)
  {
  }

  // ---------------------------------------------------------------------
  // Candidates and ranked hits

  /** The filters of one search. `minScore` is `None` when not given. */
  datatype Filters = Filters(pathPrefix: String, includes: set<String>, excludes: set<String>, minScore: Option<real>)

  predicate Filtered(f: Filters)
  {
    f.minScore.Some? || f.pathPrefix != [] || |f.includes| > 0 || |f.excludes| > 0
  }

  /**
   * How many candidates to ask the graph for: `topK` without filters,
   * otherwise ten times `topK` within [`MinCandidateK`, `MaxCandidateK`].
   */
  function CandidateK(topK: int, f: Filters): (k: int)
    ensures !Filtered(f) ==> k == topK
    ensures Filtered(f) ==> MinCandidateK <= k <= MaxCandidateK
    ensures Filtered(f) && MinCandidateK <= 10 * topK <= MaxCandidateK ==> k == 10 * topK
  {
    if Filtered(f) then ClampInt(topK * 10, MinCandidateK, MaxCandidateK) else topK
  }

  /** For a `topK` the tool accepts, the candidate pool is never smaller than `topK`. */
  lemma CandidatesCoverTopK(rawTopK: int, f: Filters)
    ensures var topK := ClampInt(rawTopK, 1, MaxTopK);
      topK <= CandidateK(topK, f) && (Filtered(f) ==> CandidateK(topK, f) == ClampInt(10 * topK, MinCandidateK, MaxCandidateK))
  {
  }

  /** One hit from the similarity search, with its chunk's fields. */
  datatype Candidate = Candidate(score: real, path: String, chunkId: String, chunkIndex: int, start: int, end: int)

  /** A returned hit: the candidate, its rank, and its snippet or snippet error when asked for. */
  datatype Hit = Hit(rank: int, candidate: Candidate, snippet: Option<Result<(String, bool)>>)

  /**
   * A candidate survives the filters: its file is under a remembered path
   * (`remembered` is `isPathRemembered`), under the prefix if one is given,
   * its lower-cased extension is included (when an include set is given)
   * and not excluded, and its score reaches the minimum.
   */
  predicate Passes(c: Candidate, f: Filters, remembered: String -> bool, clean: String -> String)
  {
    var ext := ToLower(Paths.Ext(c.path));
    && remembered(c.path)
    && (f.pathPrefix == [] || HasPathPrefix(c.path, f.pathPrefix, clean))
    && (|f.includes| == 0 || ext in f.includes)
    && ext !in f.excludes
    && (f.minScore.None? || c.score >= f.minScore.value)
  }

  /** The candidates that pass, in the order the search returned them. */
  function Kept(cands: seq<Candidate>, f: Filters, remembered: String -> bool, clean: String -> String): (r: seq<Candidate>)
    ensures |r| <= |cands|
  {
    if |cands| == 0 then []
    else
      var init := Kept(cands[..|cands| - 1], f, remembered, clean);
      var c := cands[|cands| - 1];
      if Passes(c, f, remembered, clean) then init + [c] else init
  }

  /** Exactly the candidates that pass are kept. */
  lemma {:induction false} KeptSound(cands: seq<Candidate>, f: Filters, remembered: String -> bool, clean: String -> String)
    ensures forall c :: c in Kept(cands, f, remembered, clean) <==> c in cands && Passes(c, f, remembered, clean)
    decreases |cands|
  {
    if |cands| > 0 {
      var init := cands[..|cands| - 1];
      KeptSound(init, f, remembered, clean);
      assert forall d :: d in cands <==> d in init || d == cands[|cands| - 1];
    }
  }

  lemma KeptSnoc(cands: seq<Candidate>, i: int, f: Filters, remembered: String -> bool, clean: String -> String)
    requires 0 <= i < |cands|
    ensures Kept(cands[..i + 1], f, remembered, clean)
         == Kept(cands[..i], f, remembered, clean) + (if Passes(cands[i], f, remembered, clean) then [cands[i]] else [])
  {
    assert cands[..i + 1][..i] == cands[..i];
  }

  /** The snippet a candidate's file gives, or the read error. */
  function SnippetFor(c: Candidate, maxChars: int, read: String -> Option<String>): Result<(String, bool)>
    requires maxChars >= 0
  {
    if read(c.path).None? then Err("failed to read file")
    else Snippet(read(c.path).value, c.start, c.end, maxChars)
  }

  /** The hit for a kept candidate, unranked until the loop is over. */
  function HitFor(c: Candidate, rank: int, includeSnippets: bool, maxChars: int, read: String -> Option<String>): Hit
    requires maxChars >= 0
  {
    Hit(rank, c, if includeSnippets then Some(SnippetFor(c, maxChars, read)) else None)
  }

  /**
   * The search loop: the first `topK` candidates that pass, in order, each
   * with its snippet when `includeSnippets` is set; then each hit is ranked
   * by its position, from 1.
   */
  method SelectHits(cands: seq<Candidate>, topK: int, f: Filters, remembered: String -> bool, clean: String -> String,
                    includeSnippets: bool, maxChars: int, read: String -> Option<String>)
    returns (hits: seq<Hit>)
    requires topK >= 1 && maxChars >= 0
    ensures var kept := Kept(cands, f, remembered, clean);
      && |hits| == (if |kept| < topK then |kept| else topK)
      && forall i :: 0 <= i < |hits| ==> hits[i] == HitFor(kept[i], i + 1, includeSnippets, maxChars, read)
  {
    var found := CollectHits(cands, topK, f, remembered, clean, includeSnippets, maxChars, read);
    hits := RankHits(found);
  }

  /** `hits` are the unranked hits for `kept`, one for one. */
  predicate HitsFor(hits: seq<Hit>, kept: seq<Candidate>, includeSnippets: bool, maxChars: int, read: String -> Option<String>)
    requires maxChars >= 0
  {
    |hits| == |kept| && forall k :: 0 <= k < |hits| ==> hits[k] == HitFor(kept[k], 0, includeSnippets, maxChars, read)
  }

  lemma HitsForSnoc(hits: seq<Hit>, kept: seq<Candidate>, h: Hit, c: Candidate, includeSnippets: bool, maxChars: int, read: String -> Option<String>)
    requires maxChars >= 0 && HitsFor(hits, kept, includeSnippets, maxChars, read)
    requires h == HitFor(c, 0, includeSnippets, maxChars, read)
    ensures HitsFor(hits + [h], kept + [c], includeSnippets, maxChars, read)
  {
  }

  /** The first `topK` candidates that pass, as unranked hits. */
  method CollectHits(cands: seq<Candidate>, topK: int, f: Filters, remembered: String -> bool, clean: String -> String,
                     includeSnippets: bool, maxChars: int, read: String -> Option<String>)
    returns (hits: seq<Hit>)
    requires topK >= 1 && maxChars >= 0
    ensures var kept := Kept(cands, f, remembered, clean);
      && |hits| == (if |kept| < topK then |kept| else topK)
      && forall i :: 0 <= i < |hits| ==> hits[i] == HitFor(kept[i], 0, includeSnippets, maxChars, read)
  {
    assert Kept(cands[..0], f, remembered, clean) == [];
    hide Kept, HitFor, HitsFor, Passes, Faithful;
    var cache: map<String, String> := map[];
    hits := [];
    var i := 0;
    while i < |cands| && |hits| < topK
      invariant 0 <= i <= |cands|
      invariant |hits| == |Kept(cands[..i], f, remembered, clean)| <= topK
      invariant HitsFor(hits, Kept(cands[..i], f, remembered, clean), includeSnippets, maxChars, read)
      invariant Faithful(cache, read)
    {
      var c := cands[i];
      ghost var kept := Kept(cands[..i], f, remembered, clean);
      KeptSnoc(cands, i, f, remembered, clean);
      if Passes(c, f, remembered, clean) {
        var h;
        h, cache := NewHit(cache, c, includeSnippets, maxChars, read);
        HitsForSnoc(hits, kept, h, c, includeSnippets, maxChars, read);
        hits := hits + [h];
      }
      i := i + 1;
    }
    KeptTaken(cands, i, topK, f, remembered, clean);
    HitsForPrefix(hits, cands, i, topK, f, remembered, clean, includeSnippets, maxChars, read);
  }

  lemma HitsForPrefix(hits: seq<Hit>, cands: seq<Candidate>, i: int, topK: int, f: Filters, remembered: String -> bool, clean: String -> String,
                      includeSnippets: bool, maxChars: int, read: String -> Option<String>)
    requires 0 <= i <= |cands| && maxChars >= 0
    requires HitsFor(hits, Kept(cands[..i], f, remembered, clean), includeSnippets, maxChars, read)
    requires var a, kept := Kept(cands[..i], f, remembered, clean), Kept(cands, f, remembered, clean);
      && |a| == (if |kept| < topK then |kept| else topK)
      && forall k :: 0 <= k < |a| ==> a[k] == kept[k]
    ensures var kept := Kept(cands, f, remembered, clean);
      && |hits| == (if |kept| < topK then |kept| else topK)
      && forall k :: 0 <= k < |hits| ==> hits[k] == HitFor(kept[k], 0, includeSnippets, maxChars, read)
  {
  }

  /** Where the loop stops, what it kept is the first `topK` of all that pass, or all of them. */
  lemma KeptTaken(cands: seq<Candidate>, i: int, topK: int, f: Filters, remembered: String -> bool, clean: String -> String)
    requires 0 <= i <= |cands|
    requires var n := |Kept(cands[..i], f, remembered, clean)|; n <= topK && (i == |cands| || n == topK)
    ensures var a, kept := Kept(cands[..i], f, remembered, clean), Kept(cands, f, remembered, clean);
      && |a| == (if |kept| < topK then |kept| else topK)
      && forall k :: 0 <= k < |a| ==> a[k] == kept[k]
  {
    KeptPrefix(cands, i, f, remembered, clean);
    assert i == |cands| ==> cands[..i] == cands;
  }

  /** The unranked hit for a candidate that passed, its snippet read through the cache. */
  method NewHit(cache: map<String, String>, c: Candidate, includeSnippets: bool, maxChars: int, read: String -> Option<String>)
    returns (h: Hit, cache': map<String, String>)
    requires maxChars >= 0 && Faithful(cache, read)
    ensures h == HitFor(c, 0, includeSnippets, maxChars, read) && Faithful(cache', read)
  {
    cache' := cache;
    var snippet: Option<Result<(String, bool)>> := None;
    if includeSnippets {
      var s;
      CacheTransparent(cache, read, c.path, c.start, c.end, maxChars);
      s, cache' := ExtractSnippet(cache, read, c.path, c.start, c.end, maxChars);
      snippet := Some(s);
    }
    h := Hit(0, c, snippet);
  }

  /** `Rank = i + 1` for each hit. */
  method RankHits(found: seq<Hit>) returns (hits: seq<Hit>)
    ensures |hits| == |found| && forall k :: 0 <= k < |hits| ==> hits[k] == found[k].(rank := k + 1)
  {
    hits := found;
    for j := 0 to |hits|
      invariant |hits| == |found|
      invariant forall k :: 0 <= k < |hits| ==> hits[k] == if k < j then found[k].(rank := k + 1) else found[k]
    {
      hits := hits[j := hits[j].(rank := j + 1)];
    }
  }

  /** What passes among the first `i` candidates begins what passes among all. */
  lemma {:induction false} KeptPrefix(cands: seq<Candidate>, i: int, f: Filters, remembered: String -> bool, clean: String -> String)
    requires 0 <= i <= |cands|
    ensures var a := Kept(cands[..i], f, remembered, clean);
      |a| <= |Kept(cands, f, remembered, clean)| && a == Kept(cands, f, remembered, clean)[..|a|]
    decreases |cands| - i
  {
    hide Kept;
    if i < |cands| {
      KeptPrefix(cands, i + 1, f, remembered, clean);
      KeptSnoc(cands, i, f, remembered, clean);
      var a := Kept(cands[..i], f, remembered, clean);
      var b := Kept(cands[..i + 1], f, remembered, clean);
      var all := Kept(cands, f, remembered, clean);
      assert b[..|a|] == a;
      assert all[..|b|][..|a|] == all[..|a|];
    } else {
      assert cands[..i] == cands;
    }
  }
}
