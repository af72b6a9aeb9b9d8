/**
 * Go's `strings` helpers on `seq<char>`. One char stands for one byte of the
 * Go string, so `|s|` is Go's `len(s)` for ASCII text; whitespace is the ASCII
 * whitespace set that `unicode.IsSpace` accepts below U+0080.
 */
module Text {
  type String = seq<char>

  predicate IsSpace(c: char)
  {
    c == ' ' || c == '\t' || c == '\n' || c == '\r' || c == '\U{B}' || c == '\U{C}'
  }

  /** `strings.TrimSpace(s) == ""` */
  predicate IsBlank(s: String)
  {
    forall i :: 0 <= i < |s| ==> IsSpace(s[i])
  }

  predicate HasPrefix(s: String, p: String)
  {
    |p| <= |s| && s[..|p|] == p
  }

  predicate HasSuffix(s: String, p: String)
  {
    |p| <= |s| && s[|s| - |p|..] == p
  }

  /** `sub` occurs in `s` at position `i`. */
  predicate OccursAt(s: String, sub: String, i: int)
  {
    0 <= i && i + |sub| <= |s| && s[i..i + |sub|] == sub
  }

  /** `strings.Contains` */
  predicate Contains(s: String, sub: String)
  {
    exists i :: 0 <= i <= |s| - |sub| && OccursAt(s, sub, i)
  }

  /** `strings.Index`: the first occurrence of `sub` at or after `from`, or -1. */
  function IndexFrom(s: String, sub: String, from: nat): (r: int)
    ensures r == -1 || (from <= r && OccursAt(s, sub, r))
    ensures r == -1 ==> forall j :: from <= j <= |s| - |sub| ==> !OccursAt(s, sub, j)
    ensures r != -1 ==> forall j :: from <= j < r ==> !OccursAt(s, sub, j)
    decreases |s| - from
  {
    if from + |sub| > |s| then -1
    else if s[from..from + |sub|] == sub then from
    else IndexFrom(s, sub, from + 1)
  }

  /** The number of leading characters of `s` that are in the cut set. */
  function LeadingIn(s: String, cut: char -> bool): (n: nat)
    ensures n <= |s| && (n == |s| || !cut(s[n]))
    ensures forall i :: 0 <= i < n ==> cut(s[i])
  {
    if |s| > 0 && cut(s[0]) then
      var n := LeadingIn(s[1..], cut);
      assert forall i :: 1 <= i < n + 1 ==> s[i] == s[1..][i - 1];
      n + 1
    else 0
  }

  /** The length of `s` without the trailing characters that are in the cut set. */
  function KeptIn(s: String, cut: char -> bool): (n: nat)
    ensures n <= |s| && (n == 0 || !cut(s[n - 1]))
    ensures forall i :: n <= i < |s| ==> cut(s[i])
  {
    if |s| > 0 && cut(s[|s| - 1]) then
      var n := KeptIn(s[..|s| - 1], cut);
      assert forall i :: n <= i < |s| - 1 ==> s[i] == s[..|s| - 1][i];
      n
    else |s|
  }

  /** `strings.TrimLeft(s, whitespace)` */
  function TrimLeft(s: String): (r: String)
    ensures |r| <= |s| && r == s[|s| - |r|..]
    ensures IsBlank(s[..|s| - |r|])
    ensures r == [] || !IsSpace(r[0])
  {
    s[LeadingIn(s, IsSpace)..]
  }

  /** `strings.TrimRight(s, whitespace)` */
  function TrimRight(s: String): (r: String)
    ensures |r| <= |s| && r == s[..|r|]
    ensures IsBlank(s[|r|..])
    ensures r == [] || !IsSpace(r[|r| - 1])
  {
    s[..KeptIn(s, IsSpace)]
  }

  /** `strings.TrimSpace` */
  function TrimSpace(s: String): (r: String)
    ensures r == [] <==> IsBlank(s)
    ensures r == [] || (!IsSpace(r[0]) && !IsSpace(r[|r| - 1]))
    ensures |r| <= |s|
  {
    var l := TrimLeft(s);
    assert IsBlank(s) ==> l == [];
    assert l == [] ==> IsBlank(s) by {
      if l == [] {
        assert s[..|s| - |l|] == s;
      }
    }
    TrimRight(l)
  }

  /** Text that starts and ends with a non-space is its own trim. */
  lemma TrimmedFixed(s: String)
    requires s == [] || (!IsSpace(s[0]) && !IsSpace(s[|s| - 1]))
    ensures TrimSpace(s) == s
  {
    if |s| > 0 {
      assert LeadingIn(s, IsSpace) == 0;
      assert TrimLeft(s) == s;
      assert KeptIn(s, IsSpace) == |s|;
    }
  }

  /** The members of a non-empty sequence: those of all but its last element, and the last. */
  lemma InSnoc<T>(s: seq<T>)
    requires |s| > 0
    ensures forall x :: x in s <==> x in s[..|s| - 1] || x == s[|s| - 1]
  {
    assert s == s[..|s| - 1] + [s[|s| - 1]];
  }

  /** Appending to a text leaves its slices as they were. */
  lemma SliceOfPrefix(s: String, t: String, i: int, j: int)
    requires 0 <= i <= j <= |s|
    ensures (s + t)[i..j] == s[i..j]
  {
  }

  /** ASCII `unicode.ToLower` / `unicode.ToUpper`. */
  function LowerChar(c: char): char
  {
    if 'A' <= c <= 'Z' then (c as int + 32) as char else c
  }

  function UpperChar(c: char): char
  {
    if 'a' <= c <= 'z' then (c as int - 32) as char else c
  }

  function ToLower(s: String): (r: String)
    ensures |r| == |s| && forall i :: 0 <= i < |s| ==> r[i] == LowerChar(s[i])
  {
    seq(|s|, i requires 0 <= i < |s| => LowerChar(s[i]))
  }

  /** ASCII lower-casing leaves lower-case text as it is. */
  lemma LowerTwice(s: String)
    ensures ToLower(ToLower(s)) == ToLower(s)
  {
  }

  function ToUpper(s: String): (r: String)
    ensures |r| == |s| && forall i :: 0 <= i < |s| ==> r[i] == UpperChar(s[i])
  {
    seq(|s|, i requires 0 <= i < |s| => UpperChar(s[i]))
  }

  /**
   * `strings.Join`, written by appending the last part so that a loop that
   * appends one part per step keeps `Join(parts[..i], sep)` as its invariant.
   */
  function Join(parts: seq<String>, sep: String): String
  {
    if |parts| == 0 then []
    else if |parts| == 1 then parts[0]
    else Join(parts[..|parts| - 1], sep) + sep + parts[|parts| - 1]
  }

  lemma {:induction false} JoinCons(p: String, rest: seq<String>, sep: String)
    requires |rest| > 0
    ensures Join([p] + rest, sep) == p + sep + Join(rest, sep)
    decreases |rest|
  {
    if |rest| == 1 {
      assert ([p] + rest)[..1] == [p];
    } else {
      var init := rest[..|rest| - 1];
      assert ([p] + rest)[..|rest|] == [p] + init;
      JoinCons(p, init, sep);
    }
  }

  /** `strings.Split` for a non-empty separator. */
  function Split(s: String, sep: String): (r: seq<String>)
    requires |sep| > 0
    ensures |r| >= 1
    decreases |s|
  {
    var i := IndexFrom(s, sep, 0);
    if i == -1 then [s] else [s[..i]] + Split(s[i + |sep|..], sep)
  }

  lemma {:induction false} JoinSplit(s: String, sep: String)
    requires |sep| > 0
    ensures Join(Split(s, sep), sep) == s
    decreases |s|
  {
    var i := IndexFrom(s, sep, 0);
    if i != -1 {
      var rest := s[i + |sep|..];
      var tail := Split(rest, sep);
      assert Join(tail, sep) == rest by {
        JoinSplit(rest, sep);
      }
      assert Join([s[..i]] + tail, sep) == s[..i] + sep + Join(tail, sep) by {
        JoinCons(s[..i], tail, sep);
      }
      SplitAround(s, sep, i);
    }
  }

  lemma SplitAround(s: String, sep: String, i: int)
    requires 0 <= i && OccursAt(s, sep, i)
    ensures s == s[..i] + sep + s[i + |sep|..]
  {
  }

  /** An occurrence that ends inside the first `i` characters is one in the whole text. */
  lemma OccursInPrefix(s: String, i: int, sub: String, j: int)
    requires 0 <= j && j + |sub| <= i <= |s|
    ensures OccursAt(s[..i], sub, j) == OccursAt(s, sub, j)
  {
    assert s[..i][j..j + |sub|] == s[j..j + |sub|];
  }

  /** No part of `Split(s, sep)` contains the separator. */
  lemma {:induction false} SplitPartsFree(s: String, sep: String)
    requires |sep| > 0
    ensures forall k :: 0 <= k < |Split(s, sep)| ==> !Contains(Split(s, sep)[k], sep)
    decreases |s|
  {
    var i := IndexFrom(s, sep, 0);
    if i == -1 {
      assert Split(s, sep) == [s];
    } else {
      var rest := s[i + |sep|..];
      SplitPartsFree(rest, sep);
      var head := s[..i];
      assert Split(s, sep) == [head] + Split(rest, sep);
      forall j | 0 <= j <= |head| - |sep| ensures !OccursAt(head, sep, j) {
        OccursInPrefix(s, i, sep, j);
      }
    }
  }

  // ---------------------------------------------------------------------
  // Decimal formatting (`strconv.FormatInt(n, 10)`, `fmt.Sprintf("%d", n)`).

  predicate IsDigit(c: char)
  {
    '0' <= c <= '9'
  }

  function DigitChar(d: int): (c: char)
    requires 0 <= d < 10
    ensures IsDigit(c)
  {
    ('0' as int + d) as char
  }

  function DigitValue(c: char): int
  {
    c as int - '0' as int
  }

  /** The decimal digits of `n`, most significant first, without leading zeros. */
  function NatDigits(n: nat): (r: String)
    ensures |r| >= 1 && (forall i :: 0 <= i < |r| ==> IsDigit(r[i]))
    ensures |r| > 1 ==> r[0] != '0'
  {
    if n < 10 then [DigitChar(n)] else NatDigits(n / 10) + [DigitChar(n % 10)]
  }

  /** `strconv.FormatInt(n, 10)` */
  function IntString(n: int): String
  {
    if n < 0 then "-" + NatDigits(-n) else NatDigits(n)
  }

  /** The value of a string of decimal digits. */
  function DigitsValue(s: String): int
  {
    if |s| == 0 then 0 else 10 * DigitsValue(s[..|s| - 1]) + DigitValue(s[|s| - 1])
  }

  lemma {:induction false} DigitsRoundTrip(n: nat)
    ensures DigitsValue(NatDigits(n)) == n
  {
    if n >= 10 {
      DigitsRoundTrip(n / 10);
      var r := NatDigits(n);
      assert r[..|r| - 1] == NatDigits(n / 10);
    }
  }
}
