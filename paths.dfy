/**
 * Slash-separated path helpers with the meaning of Go's `filepath.Ext` and
 * `filepath.Base` on a Unix system.
 */
module Paths {
  import opened Text

  const Sep: char := '/'

  /** The element after the last separator: no separator occurs in it. */
  predicate NoSep(s: String)
  {
    forall i :: 0 <= i < |s| ==> s[i] != Sep
  }

  /**
   * `filepath.Ext`: the suffix from the last `.` of the final path element,
   * or "" when that element has no `.`.
   */
  function Ext(path: String): (e: String)
    ensures e == [] || (e[0] == '.' && HasSuffix(path, e) && NoSep(e))
    ensures e != [] ==> forall i :: 1 <= i < |e| ==> e[i] != '.'
    ensures e == [] ==> forall i :: 0 <= i < |path| && (forall j :: i < j < |path| ==> path[j] != Sep) ==> path[i] != '.'
    decreases |path|
  {
    if |path| == 0 || path[|path| - 1] == Sep then []
    else if path[|path| - 1] == '.' then [path[|path| - 1]]
    else
      var e := Ext(path[..|path| - 1]);
      if e == [] then [] else e + [path[|path| - 1]]
  }

  /** The path with every trailing separator removed. */
  function TrimTrailingSeps(path: String): (r: String)
    ensures HasPrefix(path, r) && (r == [] || r[|r| - 1] != Sep)
    ensures forall i :: |r| <= i < |path| ==> path[i] == Sep
  {
    if |path| > 0 && path[|path| - 1] == Sep then TrimTrailingSeps(path[..|path| - 1]) else path
  }

  /** The part of `path` after its last separator. */
  function LastElement(path: String): (r: String)
    ensures HasSuffix(path, r) && NoSep(r)
    ensures |r| < |path| ==> path[|path| - |r| - 1] == Sep
  {
    if |path| == 0 || path[|path| - 1] == Sep then []
    else LastElement(path[..|path| - 1]) + [path[|path| - 1]]
  }

  /**
   * `filepath.Base`: "." for the empty path, "/" for a path of separators,
   * otherwise the last element once trailing separators are removed.
   */
  function Base(path: String): (r: String)
    ensures r != []
    ensures path == [] ==> r == "."
    ensures path != [] && TrimTrailingSeps(path) == [] ==> r == "/"
    ensures TrimTrailingSeps(path) != [] ==> NoSep(r) && HasSuffix(TrimTrailingSeps(path), r)
    ensures var t := TrimTrailingSeps(path);
      t != [] ==> r == t || (|r| < |t| && t[|t| - |r| - 1] == Sep)
  {
    if path == [] then "."
    else
      var t := TrimTrailingSeps(path);
      if t == [] then "/" else LastElement(t)
  }

  /** Only the final element's last dot counts for the extension. */
  lemma ExtExamples()
    ensures Ext("b.tar.gz") == ".gz"
    ensures Ext("a.d/b") == ""
  {
    assert Ext("b.tar.") == ".";
    assert "b.tar.gz"[..7] == "b.tar.g" && "b.tar.g"[..6] == "b.tar.";
    assert Ext("b.tar.g") == ".g";
    assert "a.d/b"[..4] == "a.d/";
    assert Ext("a.d/") == "";
  }

  /** Trailing separators are ignored by the base name. */
  lemma BaseExamples()
    ensures Base("a/b/") == "b"
    ensures Base("//") == "/"
  {
    assert "a/b/"[..3] == "a/b";
    assert TrimTrailingSeps("a/b/") == "a/b";
    assert "a/b"[..2] == "a/";
    assert LastElement("a/") == [];
    assert "//"[..1] == "/" && "/"[..0] == "";
    assert TrimTrailingSeps("/") == "";
  }

  /** `path` is `root` itself or lies beneath it: the containment test used for remembered and watched roots. */
  predicate Under(path: String, root: String)
  {
    path == root || HasPrefix(path, root + [Sep])
  }

  /** The roots that contain one path form a chain: the shorter contains the longer. */
  lemma UnderNested(path: String, a: String, b: String)
    requires Under(path, a) && Under(path, b) && |a| <= |b|
    ensures Under(b, a)
  {
    if |a| < |b| {
      assert path != a;
      assert b[..|a| + 1] == path[..|a| + 1] == a + [Sep];
    } else if path == a {
      assert path == b;
    } else {
      assert path != b;
      assert b + [Sep] == path[..|b| + 1] == a + [Sep];
      assert a == (a + [Sep])[..|a|] == (b + [Sep])[..|b|] == b;
    }
  }

  /** Two roots of one length that both contain a path are the same root. */
  lemma UnderSameLength(path: String, a: String, b: String)
    requires Under(path, a) && Under(path, b) && |a| == |b|
    ensures a == b
  {
    UnderNested(path, a, b);
  }
}
