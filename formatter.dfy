/**
 * Helpers of the index formatter: thousands separators, category emoji,
 * grouping entries by category and picking the most recently modified
 * entries.
 */
module Formatter {
  import opened Text

  // ---------------------------------------------------------------------
  // formatNumber

  /**
   * The text the comma loop produces from the first `k` characters of `s`:
   * before character `i > 0`, a comma when the characters left from `i` are a
   * multiple of three.
   */
  function Commas(s: String, k: nat): (r: String)
    requires k <= |s|
  {
    if k == 0 then []
    else Commas(s, k - 1) + (if k - 1 > 0 && (|s| - (k - 1)) % 3 == 0 then "," else "") + [s[k - 1]]
  }

  /** `formatNumber` as written: the decimal text, commas inserted when it is longer than 3. */
  function FormatNumberAsWritten(n: int): String
  {
    var s := IntString(n);
    if |s| <= 3 then s else Commas(s, |s|)
  }

  /** The comma loop over the decimal text. */
  method FormatNumberLoop(n: int) returns (result: String)
    ensures result == FormatNumberAsWritten(n)
  {
    var s := IntString(n);
    if |s| <= 3 {
      return s;
    }
    result := [];
    var i := 0;
    while i < |s|
      invariant 0 <= i <= |s|
      invariant result == Commas(s, i)
    {
      if i > 0 && (|s| - i) % 3 == 0 {
        result := result + ",";
      }
      result := result + [s[i]];
      i := i + 1;
    }
  }

  /** For a negative number whose digit count is a multiple of 3, a comma follows the sign. */
  lemma AsWrittenSignComma()
    ensures FormatNumberAsWritten(-123) == "-,123"
  {
    assert NatDigits(123) == "123" by {
      assert NatDigits(12) == "12" by {
        assert NatDigits(1) == "1";
      }
    }
    var s := "-123";
    assert IntString(-123) == s;
    assert Commas(s, 1) == "-";
    assert Commas(s, 2) == "-,1";
    assert Commas(s, 3) == "-,12";
  }

  /** Digits grouped in threes from the right. */
  function Group(digits: String): String
  {
    if |digits| <= 3 then digits else Commas(digits, |digits|)
  }

  /** `formatNumber` with the sign kept out of the grouping. */
  function FormatNumber(n: int): String
  {
    if n < 0 then "-" + Group(NatDigits(-n)) else Group(NatDigits(n))
  }

  /** Non-negative numbers are formatted as before. */
  lemma FormatNumberAgreesOnNatural(n: int)
    requires n >= 0
    ensures FormatNumber(n) == FormatNumberAsWritten(n)
  {
  }

  function RemoveCommas(s: String): (r: String)
  {
    if |s| == 0 then [] else RemoveCommas(s[..|s| - 1]) + (if s[|s| - 1] == ',' then [] else [s[|s| - 1]])
  }

  lemma RemoveCommasSnoc(a: String, c: char)
    ensures RemoveCommas(a + [c]) == RemoveCommas(a) + (if c == ',' then [] else [c])
  {
    assert (a + [c])[..|a|] == a;
  }

  lemma {:induction false} RemoveCommasAppend(a: String, b: String)
    ensures RemoveCommas(a + b) == RemoveCommas(a) + RemoveCommas(b)
    decreases |b|
  {
    if |b| == 0 {
      assert a + b == a;
    } else {
      assert (a + b)[..|a + b| - 1] == a + b[..|b| - 1];
      RemoveCommasAppend(a, b[..|b| - 1]);
    }
  }

  /** One step of `Commas`. */
  lemma CommasStep(s: String, k: nat)
    requires 0 < k <= |s|
    ensures Commas(s, k) == Commas(s, k - 1) + (if k - 1 > 0 && (|s| - (k - 1)) % 3 == 0 then "," else "") + [s[k - 1]]
  {
  }

  /** No characters, no text. */
  lemma CommasNone(s: String)
    ensures RemoveCommas(Commas(s, 0)) == s[..0]
  {
  }

  /** Dropping the commas gives back the characters. */
  lemma {:induction false} CommasSound(s: String, k: nat)
    requires k <= |s| && forall i :: 0 <= i < |s| ==> IsDigit(s[i])
    ensures RemoveCommas(Commas(s, k)) == s[..k]
  {
    hide Commas, RemoveCommas;
    if k == 0 {
      CommasNone(s);
    } else {
      CommasSound(s, k - 1);
      CommasStep(s, k);
      var prev := Commas(s, k - 1);
      var c := s[k - 1];
      assert s[..k] == s[..k - 1] + [c];
      if k - 1 > 0 && (|s| - (k - 1)) % 3 == 0 {
        assert Commas(s, k) == (prev + [',']) + [c];
        RemoveCommasSnoc(prev + [','], c);
        RemoveCommasSnoc(prev, ',');
      } else {
        assert Commas(s, k) == prev + [c];
        RemoveCommasSnoc(prev, c);
      }
    }
  }

  /** The character at `j` is no comma, or it comes right after a digit. */
  predicate CommaAfterDigit(r: String, j: int)
    requires 0 <= j < |r|
  {
    r[j] == ',' ==> j > 0 && IsDigit(r[j - 1])
  }

  /** Every comma of `r` comes right after a digit. */
  predicate CommasAfterDigits(r: String)
  {
    forall j :: 0 <= j < |r| ==> CommaAfterDigit(r, j)
  }

  /** A group of digits reads back as the digits, and each of its commas follows a digit. */
  lemma GroupSound(d: String)
    requires forall i :: 0 <= i < |d| ==> IsDigit(d[i])
    ensures RemoveCommas(Group(d)) == d
    ensures CommasAfterDigits(Group(d))
  {
    if |d| > 3 {
      CommasSound(d, |d|);
      assert d[..|d|] == d;
      CommasDigits(d, |d|);
    } else {
      RemoveCommasOfNoCommas(d);
    }
  }

  /** The comma at `j`, if any, is followed by exactly three digits and then by a comma or the end. */
  predicate ThreeAfter(g: String, j: int)
    requires 0 <= j < |g|
  {
    g[j] == ',' ==>
      j + 3 < |g| && IsDigit(g[j + 1]) && IsDigit(g[j + 2]) && IsDigit(g[j + 3])
      && (j + 4 == |g| || g[j + 4] == ',')
  }

  /**
   * Thousands grouping: digits and commas only, a digit first, a comma among
   * the second to fourth characters once there are more than three (so the
   * first group has one to three digits), and every comma followed by
   * exactly three digits before the next comma or the end.
   */
  predicate Thousands(g: String)
  {
    && |g| > 0 && IsDigit(g[0])
    && (|g| > 3 ==> ',' in g[1..4])
    && (forall j :: 0 <= j < |g| ==> IsDigit(g[j]) || g[j] == ',')
    && (forall j :: 0 <= j < |g| ==> ThreeAfter(g, j))
  }

  /** Up to the last three characters, the comma text does not see them. */
  lemma {:induction false} CommasDropLastThree(s: String, k: nat)
    requires 3 <= |s| && k <= |s| - 3
    ensures Commas(s, k) == Commas(s[..|s| - 3], k)
  {
    if k > 0 {
      CommasDropLastThree(s, k - 1);
    }
  }

  /** Three digits or fewer get no comma. */
  lemma {:induction false} CommasShort(s: String, k: nat)
    requires |s| <= 3 && k <= |s|
    ensures Commas(s, k) == s[..k]
  {
    if k > 0 {
      CommasShort(s, k - 1);
      assert s[..k] == s[..k - 1] + [s[k - 1]];
    }
  }

  /** More than three digits: the grouping of all but the last three, a comma, and the last three. */
  lemma GroupSplit(d: String)
    requires |d| > 3
    ensures Group(d) == Group(d[..|d| - 3]) + [','] + d[|d| - 3..]
  {
    hide Commas;
    var h := d[..|d| - 3];
    CommasDropLastThree(d, |d| - 3);
    if |h| <= 3 {
      CommasShort(h, |h|);
      assert h[..|h|] == h;
    }
    CommasLastThree(d);
  }

  /** The last three characters get one comma before them and none between them. */
  lemma CommasLastThree(d: String)
    requires |d| > 3
    ensures Commas(d, |d|) == Commas(d, |d| - 3) + [','] + d[|d| - 3..]
  {
    hide Commas;
    var n := |d|;
    CommasComma(d, n - 2);
    CommasPlain(d, n - 1);
    CommasPlain(d, n);
    LastThree(d);
    SnocThree(Commas(d, n - 3), Commas(d, n - 2), Commas(d, n - 1), Commas(d, n), d[n - 3], d[n - 2], d[n - 1]);
  }

  /** Three one-element appends after a comma, gathered into one. */
  lemma SnocThree(a: String, b: String, c: String, e: String, x: char, y: char, z: char)
    requires b == a + [','] + [x] && c == b + [y] && e == c + [z]
    ensures e == a + [','] + [x, y, z]
  {
  }

  /** The last three elements of a sequence, as a display. */
  lemma LastThree(d: String)
    requires |d| >= 3
    ensures d[|d| - 3..] == [d[|d| - 3], d[|d| - 2], d[|d| - 1]]
  {
  }

  /** The step of `Commas` three digits before the end puts a comma before its digit. */
  lemma CommasComma(d: String, k: nat)
    requires 1 < k <= |d| && |d| - (k - 1) == 3
    ensures Commas(d, k) == Commas(d, k - 1) + [','] + [d[k - 1]]
  {
  }

  /** The steps of `Commas` one or two digits before the end add only their digit. */
  lemma CommasPlain(d: String, k: nat)
    requires 1 < k <= |d| && 0 < |d| - (k - 1) < 3
    ensures Commas(d, k) == Commas(d, k - 1) + [d[k - 1]]
  {
  }

  /** Appending a comma and three digits to a grouped text keeps it grouped. */
  lemma ThousandsSnoc(h: String, t: String)
    requires Thousands(h) && |t| == 3 && IsDigit(t[0]) && IsDigit(t[1]) && IsDigit(t[2])
    ensures Thousands(h + [','] + t)
  {
    var g := h + [','] + t;
    forall j | 0 <= j < |g| ensures ThreeAfter(g, j) {
      if j < |h| {
        assert ThreeAfter(h, j);
      }
    }
    if |h| <= 3 {
      assert g[|h|] == ',';
    } else {
      assert g[1..4] == h[1..4];
    }
  }

  /** The grouping of a non-empty run of digits is grouped in thousands. */
  lemma {:induction false} GroupThousands(d: String)
    requires |d| > 0 && forall i :: 0 <= i < |d| ==> IsDigit(d[i])
    ensures Thousands(Group(d))
    decreases |d|
  {
    if |d| > 3 {
      var h := d[..|d| - 3];
      GroupThousands(h);
      GroupSplit(d);
      ThousandsSnoc(Group(h), d[|d| - 3..]);
    }
  }

  /**
   * The corrected formatting reads back as the plain decimal text, no
   * comma stands first, after the sign or next to another comma, and after
   * the sign of a negative number the digits are grouped in thousands: one
   * to three digits first, then exactly three between commas.
   */
  lemma FormatNumberSound(n: int)
    ensures RemoveCommas(FormatNumber(n)) == IntString(n)
    ensures CommasAfterDigits(FormatNumber(n))
    ensures n < 0 ==> FormatNumber(n)[0] == '-' && Thousands(FormatNumber(n)[1..])
    ensures n >= 0 ==> Thousands(FormatNumber(n))
  {
    var m: nat := if n < 0 then -n else n;
    var d := NatDigits(m);
    GroupSound(d);
    GroupThousands(d);
    if n < 0 {
      SignedSound(Group(d), d);
      assert FormatNumber(n)[1..] == Group(d);
    }
  }

  lemma SignedSound(g: String, d: String)
    requires RemoveCommas(g) == d
    requires CommasAfterDigits(g)
    ensures RemoveCommas("-" + g) == "-" + d
    ensures CommasAfterDigits("-" + g)
  {
    RemoveCommasAppend("-", g);
    RemoveCommasSnoc([], '-');
    assert [] + ['-'] == "-";
    SignedCommas(g);
  }

  lemma SignedCommas(g: String)
    requires CommasAfterDigits(g)
    ensures CommasAfterDigits(['-'] + g)
  {
    var r := ['-'] + g;
    forall j | 0 <= j < |r| ensures CommaAfterDigit(r, j) {
      if j > 0 {
        assert CommaAfterDigit(g, j - 1);
        assert r[j] == g[j - 1];
        if j > 1 {
          assert r[j - 1] == g[j - 2];
        }
      }
    }
  }

  lemma {:induction false} RemoveCommasOfNoCommas(s: String)
    requires forall i :: 0 <= i < |s| ==> IsDigit(s[i])
    ensures RemoveCommas(s) == s
  {
    if |s| > 0 {
      RemoveCommasOfNoCommas(s[..|s| - 1]);
    }
  }

  /** The comma text holds digits and commas, each comma after a digit, and ends in a digit. */
  lemma {:induction false} CommasDigits(d: String, k: nat)
    requires k <= |d| && forall i :: 0 <= i < |d| ==> IsDigit(d[i])
    ensures var r := Commas(d, k);
      (forall j :: 0 <= j < |r| ==> r[j] == ',' || IsDigit(r[j]))
      && CommasAfterDigits(r)
      && (k > 0 ==> IsDigit(r[|r| - 1]))
  {
    if k > 0 {
      CommasDigits(d, k - 1);
      var prev := Commas(d, k - 1);
      var c := d[k - 1];
      var r := Commas(d, k);
      var mid: String := if k - 1 > 0 && (|d| - (k - 1)) % 3 == 0 then "," else "";
      assert r == prev + mid + [c];
      forall j | 0 <= j < |r| ensures CommaAfterDigit(r, j) {
        if j < |prev| {
          assert CommaAfterDigit(prev, j);
          assert r[j] == prev[j];
          if j > 0 {
            assert r[j - 1] == prev[j - 1];
          }
        }
      }
    }
  }

  // ---------------------------------------------------------------------
  // Category emoji

  const KnownCategories: set<String> :=
    {"documents", "presentations", "images", "transcripts", "data", "code", "videos", "audio", "archives", "other"}

  /** `getCategoryEmoji`: the emoji of a known category, the paperclip for every other. */
  function CategoryEmoji(category: String): (e: String)
    ensures e != []
    ensures category !in KnownCategories ==> e == "📎"
    ensures category in KnownCategories - {"other"} ==> e != "📎"
  {
    if category == "documents" then "📄"
    else if category == "presentations" then "🎤"
    else if category == "images" then "🖼️"
    else if category == "transcripts" then "🎬"
    else if category == "data" then "📊"
    else if category == "code" then "💻"
    else if category == "videos" then "🎥"
    else if category == "audio" then "🎵"
    else if category == "archives" then "📦"
    else "📎"
  }

  // ---------------------------------------------------------------------
  // Index entries

  /** The fields of an index entry the formatter reads; `modified` is a timestamp in nanoseconds. */
  datatype IndexEntry = IndexEntry(path: String, category: String, modified: int)

  /** The entries of one category, in input order. */
  function OfCategory(entries: seq<IndexEntry>, c: String): (r: seq<IndexEntry>)
    ensures |r| <= |entries|
    ensures forall k :: 0 <= k < |r| ==> r[k].category == c && r[k] in entries
  {
    if |entries| == 0 then []
    else
      var last := entries[|entries| - 1];
      OfCategory(entries[..|entries| - 1], c) + (if last.category == c then [last] else [])
  }

  function Categories(entries: seq<IndexEntry>): set<String>
  {
    set k | 0 <= k < |entries| :: entries[k].category
  }

  /** `groupByCategory`: the loop appending each entry to its category's list. */
  method GroupByCategory(entries: seq<IndexEntry>) returns (groups: map<String, seq<IndexEntry>>)
    ensures groups.Keys == Categories(entries)
    ensures forall c :: c in groups ==> groups[c] == OfCategory(entries, c)
  {
    groups := map[];
    var i := 0;
    while i < |entries|
      invariant 0 <= i <= |entries|
      invariant groups.Keys == Categories(entries[..i])
      invariant forall c :: c in groups ==> groups[c] == OfCategory(entries[..i], c)
    {
      var e := entries[i];
      var prefix := entries[..i];
      assert entries[..i + 1] == prefix + [e];
      CategoriesSnoc(prefix, e);
      OfCategorySnoc(prefix, e);
      if e.category in groups {
        groups := groups[e.category := groups[e.category] + [e]];
      } else {
        OfCategoryAbsent(prefix, e.category);
        groups := groups[e.category := [e]];
      }
      i := i + 1;
    }
    assert entries[..i] == entries;
  }

  lemma CategoriesSnoc(prefix: seq<IndexEntry>, e: IndexEntry)
    ensures Categories(prefix + [e]) == Categories(prefix) + {e.category}
  {
    assert forall k :: 0 <= k < |prefix| ==> (prefix + [e])[k] == prefix[k];
    assert (prefix + [e])[|prefix|] == e;
  }

  lemma OfCategorySnoc(prefix: seq<IndexEntry>, e: IndexEntry)
    ensures forall c :: OfCategory(prefix + [e], c) == OfCategory(prefix, c) + (if e.category == c then [e] else [])
  {
    assert (prefix + [e])[..|prefix|] == prefix;
  }

  lemma {:induction false} OfCategoryAbsent(entries: seq<IndexEntry>, c: String)
    requires c !in Categories(entries)
    ensures OfCategory(entries, c) == []
  {
    if |entries| > 0 {
      var init := entries[..|entries| - 1];
      assert Categories(init) <= Categories(entries) by {
        forall x | x in Categories(init) ensures x in Categories(entries) {
          var k :| 0 <= k < |init| && init[k].category == x;
          assert entries[k].category == x;
        }
      }
      OfCategoryAbsent(init, c);
      assert entries[|entries| - 1].category in Categories(entries);
    }
  }

  /** The sizes of the groups of the listed categories. */
  function GroupSizes(entries: seq<IndexEntry>, cats: seq<String>): nat
  {
    if |cats| == 0 then 0 else |OfCategory(entries, cats[0])| + GroupSizes(entries, cats[1..])
  }

  /** How many of the listed categories equal `c`. */
  function Occurrences(cats: seq<String>, c: String): nat
  {
    if |cats| == 0 then 0 else (if cats[0] == c then 1 else 0) + Occurrences(cats[1..], c)
  }

  lemma {:induction false} GroupSizesSnoc(entries: seq<IndexEntry>, e: IndexEntry, cats: seq<String>)
    ensures GroupSizes(entries + [e], cats) == GroupSizes(entries, cats) + Occurrences(cats, e.category)
  {
    if |cats| > 0 {
      GroupSizesSnoc(entries, e, cats[1..]);
      assert (entries + [e])[..|entries + [e]| - 1] == entries;
    }
  }

  lemma {:induction false} OccursOnce(cats: seq<String>, c: String)
    requires forall i, j :: 0 <= i < j < |cats| ==> cats[i] != cats[j]
    requires c in cats
    ensures Occurrences(cats, c) == 1
  {
    if cats[0] == c {
      NotOccurring(cats[1..], c);
    } else {
      OccursOnce(cats[1..], c);
    }
  }

  lemma {:induction false} NotOccurring(cats: seq<String>, c: String)
    requires c !in cats
    ensures Occurrences(cats, c) == 0
  {
    if |cats| > 0 {
      NotOccurring(cats[1..], c);
    }
  }

  /**
   * Grouping loses no entry and counts none twice: over any list of the
   * categories, each listed once, the group sizes add up to the entries.
   */
  lemma {:induction false} GroupsCoverEntries(entries: seq<IndexEntry>, cats: seq<String>)
    requires forall i, j :: 0 <= i < j < |cats| ==> cats[i] != cats[j]
    requires forall k :: 0 <= k < |entries| ==> entries[k].category in cats
    ensures GroupSizes(entries, cats) == |entries|
  {
    if |entries| == 0 {
      EmptyGroups(cats);
    } else {
      var init := entries[..|entries| - 1];
      var e := entries[|entries| - 1];
      GroupsCoverEntries(init, cats);
      assert init + [e] == entries;
      GroupSizesSnoc(init, e, cats);
      OccursOnce(cats, e.category);
    }
  }

  lemma {:induction false} EmptyGroups(cats: seq<String>)
    ensures GroupSizes([], cats) == 0
  {
    if |cats| > 0 {
      EmptyGroups(cats[1..]);
    }
  }

  // ---------------------------------------------------------------------
  // Recent entries

  const RecentLimit: nat := 10

  /** A day in nanoseconds; the cutoff is `days` such days before `now`. */
  const DayNanos: int := 24 * 60 * 60 * 1000000000

  /** The moment `days` whole days before `now`. */
  function Cutoff(now: int, days: int): int
  {
    now - days * DayNanos
  }

  function ModifiedAfter(entries: seq<IndexEntry>, cutoff: int): (r: seq<IndexEntry>)
    ensures forall k :: 0 <= k < |r| ==> r[k].modified > cutoff
    ensures multiset(r) <= multiset(entries)
  {
    if |entries| == 0 then []
    else
      var last := entries[|entries| - 1];
      assert entries == entries[..|entries| - 1] + [last];
      ModifiedAfter(entries[..|entries| - 1], cutoff) + (if last.modified > cutoff then [last] else [])
  }

  predicate NewestFirst(s: seq<IndexEntry>)
  {
    forall i, j :: 0 <= i < j < |s| ==> s[i].modified >= s[j].modified
  }

  /** `sorted` with `e` placed before the first strictly older entry. */
  function InsertByTime(sorted: seq<IndexEntry>, e: IndexEntry): seq<IndexEntry>
  {
    if |sorted| == 0 then [e]
    else if sorted[0].modified < e.modified then [e] + sorted
    else [sorted[0]] + InsertByTime(sorted[1..], e)
  }

  /** Inserting adds exactly the one entry. */
  lemma {:induction false} InsertByTimeAdds(sorted: seq<IndexEntry>, e: IndexEntry)
    ensures multiset(InsertByTime(sorted, e)) == multiset(sorted) + multiset{e}
  {
    if |sorted| > 0 && sorted[0].modified >= e.modified {
      InsertByTimeAdds(sorted[1..], e);
      assert sorted == [sorted[0]] + sorted[1..];
    }
  }

  /** Inserting keeps the list newest first. */
  lemma {:induction false} InsertByTimeSorted(sorted: seq<IndexEntry>, e: IndexEntry)
    requires NewestFirst(sorted)
    ensures NewestFirst(InsertByTime(sorted, e))
  {
    if |sorted| > 0 && sorted[0].modified >= e.modified {
      var tail := sorted[1..];
      var rest := InsertByTime(tail, e);
      InsertByTimeSorted(tail, e);
      InsertByTimeAdds(tail, e);
      HeadNewest(sorted, e, rest);
      NewestFirstCons(sorted[0], rest);
    }
  }

  /** The head of a newest-first list is as new as anything inserted behind it. */
  lemma HeadNewest(sorted: seq<IndexEntry>, e: IndexEntry, rest: seq<IndexEntry>)
    requires NewestFirst(sorted) && |sorted| > 0 && sorted[0].modified >= e.modified
    requires multiset(rest) == multiset(sorted[1..]) + multiset{e}
    ensures forall k :: 0 <= k < |rest| ==> sorted[0].modified >= rest[k].modified
  {
    var tail := sorted[1..];
    forall k | 0 <= k < |rest| ensures sorted[0].modified >= rest[k].modified {
      assert rest[k] in multiset(rest);
      if rest[k] != e {
        assert rest[k] in multiset(tail);
        var j :| 0 <= j < |tail| && tail[j] == rest[k];
        assert sorted[j + 1] == rest[k];
      }
    }
  }

  lemma NewestFirstCons(x: IndexEntry, rest: seq<IndexEntry>)
    requires NewestFirst(rest)
    requires forall k :: 0 <= k < |rest| ==> x.modified >= rest[k].modified
    ensures NewestFirst([x] + rest)
  {
    var r := [x] + rest;
    forall i, j | 0 <= i < j < |r| ensures r[i].modified >= r[j].modified {
      assert r[j] == rest[j - 1];
      if i > 0 {
        assert r[i] == rest[i - 1];
      }
    }
  }

  /** `sort.Slice` by modification time, newest first, as repeated insertion. */
  method SortNewestFirst(matching: seq<IndexEntry>) returns (sorted: seq<IndexEntry>)
    ensures NewestFirst(sorted) && multiset(sorted) == multiset(matching)
  {
    sorted := [];
    var i := 0;
    while i < |matching|
      invariant 0 <= i <= |matching|
      invariant NewestFirst(sorted) && multiset(sorted) == multiset(matching[..i])
    {
      assert multiset(matching[..i + 1]) == multiset(matching[..i]) + multiset{matching[i]} by {
        assert matching[..i + 1] == matching[..i] + [matching[i]];
      }
      InsertByTimeAdds(sorted, matching[i]);
      InsertByTimeSorted(sorted, matching[i]);
      sorted := InsertByTime(sorted, matching[i]);
      i := i + 1;
    }
    assert matching[..i] == matching;
  }

  /**
   * `recent` is what `getRecentEntries` promises for the entries `all` after
   * the filter: at most ten of them, newest first, each newer than the
   * cutoff, as many as there are up to ten, and none left out newer than one
   * kept.
   */
  predicate Recent(all: seq<IndexEntry>, cutoff: int, recent: seq<IndexEntry>)
  {
    && |recent| <= RecentLimit && NewestFirst(recent)
    && multiset(recent) <= multiset(all)
    && (forall k :: 0 <= k < |recent| ==> recent[k].modified > cutoff)
    && |recent| == Min(|all|, RecentLimit)
    && KeepsNewest(all, recent)
  }

  /**
   * `getRecentEntries`: the entries modified after the cutoff, newest first,
   * at most ten. Entries with equal times may come in any order, as an
   * unstable sort leaves them.
   */
  method RecentEntries(entries: seq<IndexEntry>, now: int, days: int) returns (recent: seq<IndexEntry>)
    ensures Recent(ModifiedAfter(entries, Cutoff(now, days)), Cutoff(now, days), recent)
  {
    var cutoff := Cutoff(now, days);
    var matching := ModifiedAfter(entries, cutoff);
    var sorted := SortNewestFirst(matching);
    recent := if |sorted| > RecentLimit then sorted[..RecentLimit] else sorted;
    RecentSound(matching, cutoff, sorted, recent);
  }

  lemma RecentSound(matching: seq<IndexEntry>, cutoff: int, sorted: seq<IndexEntry>, recent: seq<IndexEntry>)
    requires forall k :: 0 <= k < |matching| ==> matching[k].modified > cutoff
    requires NewestFirst(sorted) && multiset(sorted) == multiset(matching)
    requires recent == if |sorted| > RecentLimit then sorted[..RecentLimit] else sorted
    ensures Recent(matching, cutoff, recent)
  {
    TakeNewest(matching, sorted, recent);
    RecentAreAfterCutoff(recent, matching, cutoff);
  }

  function Min(a: int, b: int): int
  {
    if a < b then a else b
  }

  /** No entry of `all` left out of `recent` is newer than one kept. */
  predicate KeepsNewest(all: seq<IndexEntry>, recent: seq<IndexEntry>)
  {
    forall e :: e in multiset(all) - multiset(recent) ==>
      forall k :: 0 <= k < |recent| ==> e.modified <= recent[k].modified
  }

  /** The first entries of a newest-first arrangement of `matching` are its newest ones. */
  lemma TakeNewest(matching: seq<IndexEntry>, sorted: seq<IndexEntry>, recent: seq<IndexEntry>)
    requires NewestFirst(sorted) && multiset(sorted) == multiset(matching)
    requires recent == if |sorted| > RecentLimit then sorted[..RecentLimit] else sorted
    ensures |recent| == Min(|matching|, RecentLimit) && NewestFirst(recent)
    ensures multiset(recent) <= multiset(matching)
    ensures KeepsNewest(matching, recent)
  {
    assert |sorted| == |matching| by {
      assert |multiset(sorted)| == |multiset(matching)|;
    }
    var n := |recent|;
    var dropped := sorted[n..];
    assert sorted == recent + dropped;
    assert multiset(matching) - multiset(recent) == multiset(dropped);
    DroppedAreOlder(sorted, n);
    NewestFirstPrefix(sorted, n);
  }

  lemma NewestFirstPrefix(sorted: seq<IndexEntry>, n: nat)
    requires NewestFirst(sorted) && n <= |sorted|
    ensures NewestFirst(sorted[..n])
  {
    forall i, j | 0 <= i < j < n ensures sorted[..n][i].modified >= sorted[..n][j].modified {
      assert sorted[..n][i] == sorted[i] && sorted[..n][j] == sorted[j];
    }
  }

  /** In a newest-first list, nothing after position `n` is newer than anything before it. */
  lemma DroppedAreOlder(sorted: seq<IndexEntry>, n: nat)
    requires NewestFirst(sorted) && n <= |sorted|
    ensures forall e :: e in multiset(sorted[n..]) ==>
      forall k :: 0 <= k < n ==> e.modified <= sorted[..n][k].modified
  {
    var dropped := sorted[n..];
    forall e: IndexEntry | e in multiset(dropped)
      ensures forall k :: 0 <= k < n ==> e.modified <= sorted[..n][k].modified
    {
      var j :| 0 <= j < |dropped| && dropped[j] == e;
      assert sorted[n + j] == e;
      forall k | 0 <= k < n ensures e.modified <= sorted[..n][k].modified {
        assert sorted[..n][k] == sorted[k];
      }
    }
  }

  /** Every entry the filter keeps is newer than the cutoff and comes from the input. */
  lemma RecentAreAfterCutoff(recent: seq<IndexEntry>, matching: seq<IndexEntry>, cutoff: int)
    requires forall k :: 0 <= k < |matching| ==> matching[k].modified > cutoff
    requires multiset(recent) <= multiset(matching)
    ensures forall k :: 0 <= k < |recent| ==> recent[k].modified > cutoff
  {
    forall k | 0 <= k < |recent| ensures recent[k].modified > cutoff {
      assert recent[k] in multiset(recent);
      assert recent[k] in multiset(matching);
    }
  }
}
