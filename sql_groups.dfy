/**
 * The SQL chunker above the statement lexer: statements grouped by the
 * table they touch, the text of a group, dialect detection, the split of a
 * group that is too large, and the chunks laid out from the groups.
 *
 * Statements are classified by regular expressions (statement type, object
 * type, table and procedure name); here the classifier is a parameter.
 */
module SqlGroups {
  import opened Text
  import opened Wrappers
  import opened Chunks
  import SqlChunker

  /** What the classifier reports about one statement. */
  datatype StmtInfo = StmtInfo(statementType: String, objectType: String, tableName: String, procedureName: String)

  datatype Stmt = Stmt(content: String, info: StmtInfo)

  /** The SQL metadata a chunk carries: its first statement's, and the dialect. */
  datatype SqlMeta = SqlMeta(statementType: String, objectType: String, tableName: String, procedureName: String, dialect: String)

  // ---------------------------------------------------------------------
  // Grouping

  /** Functions, procedures and statements without a table form groups of their own. */
  predicate Standalone(s: Stmt)
  {
    s.info.objectType == "FUNCTION" || s.info.objectType == "PROCEDURE" || s.info.tableName == []
  }

  predicate Distinct(ts: seq<String>)
  {
    forall i, j :: 0 <= i < j < |ts| ==> ts[i] != ts[j]
  }

  /** The tables of `xs`, each once, in the order they first appear. */
  function TableOrder(xs: seq<Stmt>): seq<String>
  {
    if |xs| == 0 then []
    else
      var o := TableOrder(xs[..|xs| - 1]);
      var x := xs[|xs| - 1];
      if Standalone(x) || x.info.tableName in o then o else o + [x.info.tableName]
  }

  /** The statements of `xs` that belong to one of the tables `ts`, in order. */
  function InTables(xs: seq<Stmt>, ts: seq<String>): seq<Stmt>
  {
    if |xs| == 0 then []
    else
      var x := xs[|xs| - 1];
      InTables(xs[..|xs| - 1], ts) + (if !Standalone(x) && x.info.tableName in ts then [x] else [])
  }

  function TableGroup(xs: seq<Stmt>, t: String): seq<Stmt>
  {
    InTables(xs, [t])
  }

  /** Every statement that belongs to some table, in order. */
  function Tabled(xs: seq<Stmt>): seq<Stmt>
  {
    if |xs| == 0 then []
    else Tabled(xs[..|xs| - 1]) + (if Standalone(xs[|xs| - 1]) then [] else [xs[|xs| - 1]])
  }

  /** One group per standalone statement, in order. */
  function Singles(xs: seq<Stmt>): seq<seq<Stmt>>
  {
    if |xs| == 0 then []
    else Singles(xs[..|xs| - 1]) + (if Standalone(xs[|xs| - 1]) then [[xs[|xs| - 1]]] else [])
  }

  function TableGroups(xs: seq<Stmt>, order: seq<String>): seq<seq<Stmt>>
  {
    seq(|order|, i requires 0 <= i < |order| => TableGroup(xs, order[i]))
  }

  /** What `groupStatements` returns: the table groups, then the standalone ones. */
  function Grouped(xs: seq<Stmt>): seq<seq<Stmt>>
  {
    TableGroups(xs, TableOrder(xs)) + Singles(xs)
  }

  function Flatten(gs: seq<seq<Stmt>>): seq<Stmt>
  {
    if |gs| == 0 then [] else gs[0] + Flatten(gs[1..])
  }

  lemma {:induction false} FlattenAppend(a: seq<seq<Stmt>>, b: seq<seq<Stmt>>)
    ensures Flatten(a + b) == Flatten(a) + Flatten(b)
    decreases |a|
  {
    if |a| == 0 {
      assert a + b == b;
    } else {
      assert (a + b)[1..] == a[1..] + b;
      FlattenAppend(a[1..], b);
    }
  }

  /**
   * The table order lists each table once, covers every statement that has
   * a table, and only grows as statements are appended: a table keeps the
   * place of its first statement.
   */
  lemma TableOrderSound(xs: seq<Stmt>)
    ensures Distinct(TableOrder(xs))
    ensures forall k :: 0 <= k < |xs| && !Standalone(xs[k]) ==> xs[k].info.tableName in TableOrder(xs)
    ensures forall t :: t in TableOrder(xs) ==> |TableGroup(xs, t)| > 0
  {
    TableOrderDistinct(xs);
    TableOrderCovers(xs);
    TableOrderNonEmpty(xs);
  }

  lemma {:induction false} TableOrderDistinct(xs: seq<Stmt>)
    ensures Distinct(TableOrder(xs))
  {
    if |xs| > 0 {
      TableOrderDistinct(xs[..|xs| - 1]);
    }
  }

  lemma {:induction false} TableOrderCovers(xs: seq<Stmt>)
    ensures forall k :: 0 <= k < |xs| && !Standalone(xs[k]) ==> xs[k].info.tableName in TableOrder(xs)
  {
    if |xs| > 0 {
      var init := xs[..|xs| - 1];
      TableOrderCovers(init);
      assert forall k :: 0 <= k < |init| ==> xs[k] == init[k];
    }
  }

  lemma {:induction false} TableOrderNonEmpty(xs: seq<Stmt>)
    ensures forall t :: t in TableOrder(xs) ==> |TableGroup(xs, t)| > 0
  {
    if |xs| > 0 {
      TableOrderNonEmpty(xs[..|xs| - 1]);
    }
  }

  lemma {:induction false} TableOrderGrows(xs: seq<Stmt>, ys: seq<Stmt>)
    ensures HasPrefixSeq(TableOrder(xs + ys), TableOrder(xs))
    decreases |ys|
  {
    if |ys| == 0 {
      assert xs + ys == xs;
    } else {
      var init := ys[..|ys| - 1];
      TableOrderGrows(xs, init);
      assert (xs + ys)[..|xs + ys| - 1] == xs + init;
    }
  }

  predicate HasPrefixSeq(a: seq<String>, p: seq<String>)
  {
    |p| <= |a| && a[..|p|] == p
  }

  /** Statements of disjoint table lists add up. */
  lemma {:induction false} InTablesSplit(xs: seq<Stmt>, t: String, rest: seq<String>)
    requires t !in rest
    ensures multiset(InTables(xs, [t] + rest)) == multiset(InTables(xs, [t])) + multiset(InTables(xs, rest))
  {
    if |xs| > 0 {
      InTablesSplit(xs[..|xs| - 1], t, rest);
    }
  }

  /** A table list that covers every tabled statement selects all of them. */
  lemma {:induction false} InTablesCover(xs: seq<Stmt>, ts: seq<String>)
    requires forall k :: 0 <= k < |xs| && !Standalone(xs[k]) ==> xs[k].info.tableName in ts
    ensures InTables(xs, ts) == Tabled(xs)
  {
    if |xs| > 0 {
      var init := xs[..|xs| - 1];
      assert forall k :: 0 <= k < |init| ==> init[k] == xs[k];
      InTablesCover(init, ts);
    }
  }

  lemma {:induction false} FlattenTableGroups(xs: seq<Stmt>, order: seq<String>)
    requires Distinct(order)
    ensures multiset(Flatten(TableGroups(xs, order))) == multiset(InTables(xs, order))
    decreases |order|
  {
    if |order| == 0 {
      EmptyTables(xs);
    } else {
      var rest := order[1..];
      assert TableGroups(xs, order) == [TableGroup(xs, order[0])] + TableGroups(xs, rest);
      FlattenTableGroups(xs, rest);
      assert order[0] !in rest by {
        forall k | 0 <= k < |rest| ensures rest[k] != order[0] {
          assert rest[k] == order[k + 1];
        }
      }
      assert [order[0]] + rest == order;
      InTablesSplit(xs, order[0], rest);
    }
  }

  lemma {:induction false} EmptyTables(xs: seq<Stmt>)
    ensures InTables(xs, []) == []
  {
    if |xs| > 0 {
      EmptyTables(xs[..|xs| - 1]);
    }
  }

  lemma {:induction false} FlattenSingles(xs: seq<Stmt>)
    ensures multiset(Flatten(Singles(xs))) + multiset(Tabled(xs)) == multiset(xs)
  {
    if |xs| > 0 {
      var init := xs[..|xs| - 1];
      var x := xs[|xs| - 1];
      assert multiset(Flatten(Singles(init))) + multiset(Tabled(init)) == multiset(init) by {
        FlattenSingles(init);
      }
      assert multiset(xs) == multiset(init) + multiset{x} by {
        assert xs == init + [x];
      }
      SinglesTabledSnoc(xs);
    }
  }

  /** The last statement goes either to its own group or to the tabled ones. */
  lemma SinglesTabledSnoc(xs: seq<Stmt>)
    requires |xs| > 0
    ensures var init := xs[..|xs| - 1];
      multiset(Flatten(Singles(xs))) + multiset(Tabled(xs))
        == multiset(Flatten(Singles(init))) + multiset(Tabled(init)) + multiset{xs[|xs| - 1]}
  {
    var init := xs[..|xs| - 1];
    var x := xs[|xs| - 1];
    var f0 := Flatten(Singles(init));
    var t0 := Tabled(init);
    if Standalone(x) {
      SnocStandalone(xs);
      assert multiset(f0 + [x]) == multiset(f0) + multiset{x};
    } else {
      SnocTabled(xs);
      assert multiset(t0 + [x]) == multiset(t0) + multiset{x};
    }
  }

  lemma SnocStandalone(xs: seq<Stmt>)
    requires |xs| > 0 && Standalone(xs[|xs| - 1])
    ensures var init := xs[..|xs| - 1];
      Flatten(Singles(xs)) == Flatten(Singles(init)) + [xs[|xs| - 1]] && Tabled(xs) == Tabled(init)
  {
    var init := xs[..|xs| - 1];
    var x := xs[|xs| - 1];
    FlattenAppend(Singles(init), [[x]]);
    assert Flatten([[x]]) == [x];
  }

  lemma SnocTabled(xs: seq<Stmt>)
    requires |xs| > 0 && !Standalone(xs[|xs| - 1])
    ensures var init := xs[..|xs| - 1];
      Singles(xs) == Singles(init) && Tabled(xs) == Tabled(init) + [xs[|xs| - 1]]
  {
  }

  /** `groupStatements` loses and duplicates nothing: its groups are a permutation of the statements. */
  lemma GroupedIsPermutation(xs: seq<Stmt>)
    ensures multiset(Flatten(Grouped(xs))) == multiset(xs)
  {
    var order := TableOrder(xs);
    TableOrderSound(xs);
    FlattenAppend(TableGroups(xs, order), Singles(xs));
    FlattenTableGroups(xs, order);
    InTablesCover(xs, order);
    FlattenSingles(xs);
  }

  lemma {:induction false} InTablesMembers(xs: seq<Stmt>, ts: seq<String>)
    ensures forall x :: x in InTables(xs, ts) ==> x in xs && !Standalone(x) && x.info.tableName in ts
  {
    if |xs| > 0 {
      InTablesMembers(xs[..|xs| - 1], ts);
    }
  }

  lemma {:induction false} SinglesMembers(xs: seq<Stmt>)
    ensures forall g :: g in Singles(xs) ==> |g| == 1 && g[0] in xs && Standalone(g[0])
  {
    if |xs| > 0 {
      SinglesMembers(xs[..|xs| - 1]);
    }
  }

  /**
   * The shape of the groups: first one non-empty group per table, in the
   * order the tables first appear, holding only that table's statements;
   * then one group per function, procedure or table-less statement.
   */
  lemma GroupedShape(xs: seq<Stmt>)
    ensures var gs := Grouped(xs);
      var order := TableOrder(xs);
      && |gs| == |order| + |Singles(xs)|
      && (forall i :: 0 <= i < |order| ==>
            (|gs[i]| > 0 && forall x :: x in gs[i] ==> x in xs && !Standalone(x) && x.info.tableName == order[i]))
      && (forall i :: |order| <= i < |gs| ==> |gs[i]| == 1 && gs[i][0] in xs && Standalone(gs[i][0]))
  {
    var order := TableOrder(xs);
    TableGroupsShape(xs, order);
    SinglesMembers(xs);
    var gs := Grouped(xs);
    assert gs[..|order|] == TableGroups(xs, order) && gs[|order|..] == Singles(xs);
  }

  lemma TableGroupsShape(xs: seq<Stmt>, order: seq<String>)
    requires order == TableOrder(xs)
    ensures forall i :: 0 <= i < |order| ==>
      (|TableGroups(xs, order)[i]| > 0 &&
       forall x :: x in TableGroups(xs, order)[i] ==> x in xs && !Standalone(x) && x.info.tableName == order[i])
  {
    TableOrderSound(xs);
    forall i | 0 <= i < |order|
      ensures forall x :: x in TableGroup(xs, order[i]) ==> x in xs && !Standalone(x) && x.info.tableName == order[i]
    {
      InTablesMembers(xs, [order[i]]);
    }
  }

  lemma TableGroupSnoc(xs: seq<Stmt>, i: nat, t: String)
    requires i < |xs|
    ensures TableGroup(xs[..i + 1], t)
      == TableGroup(xs[..i], t) + (if !Standalone(xs[i]) && xs[i].info.tableName == t then [xs[i]] else [])
  {
    assert xs[..i + 1][..i] == xs[..i];
  }

  lemma NewTableEmpty(xs: seq<Stmt>, t: String)
    requires t !in TableOrder(xs)
    ensures TableGroup(xs, t) == []
  {
    TableOrderSound(xs);
    InTablesMembers(xs, [t]);
  }

  /** After the statements before `i`: the map, the table order and the standalone groups built so far. */
  ghost predicate GroupsSoFar(xs: seq<Stmt>, i: nat, tableGroups: map<String, seq<Stmt>>,
                              tableOrder: seq<String>, standalone: seq<seq<Stmt>>)
  {
    && i <= |xs|
    && tableOrder == TableOrder(xs[..i])
    && standalone == Singles(xs[..i])
    && (forall t :: t in tableGroups <==> t in tableOrder)
    && (forall t :: t in tableGroups ==> tableGroups[t] == TableGroup(xs[..i], t))
  }

  /** `groupStatements`: a map from table to statements, the table order, and the standalone groups. */
  method GroupStatements(xs: seq<Stmt>) returns (groups: seq<seq<Stmt>>)
    ensures groups == Grouped(xs)
  {
    var tableGroups: map<String, seq<Stmt>> := map[];
    var tableOrder: seq<String> := [];
    var standalone: seq<seq<Stmt>> := [];
    var i := 0;
    while i < |xs|
      invariant GroupsSoFar(xs, i, tableGroups, tableOrder, standalone)
      decreases |xs| - i
    {
      tableGroups, tableOrder, standalone := AddStatement(xs, i, tableGroups, tableOrder, standalone);
      i := i + 1;
    }
    assert xs[..i] == xs;
    groups := OrderedGroups(tableGroups, tableOrder);
    assert groups == TableGroups(xs, tableOrder);
    groups := groups + standalone;
  }

  /** One iteration of the grouping loop: statement `i` joins its table's group or gets one of its own. */
  method AddStatement(xs: seq<Stmt>, i: nat, tableGroups: map<String, seq<Stmt>>,
                      tableOrder: seq<String>, standalone: seq<seq<Stmt>>)
    returns (tableGroups': map<String, seq<Stmt>>, tableOrder': seq<String>, standalone': seq<seq<Stmt>>)
    requires i < |xs| && GroupsSoFar(xs, i, tableGroups, tableOrder, standalone)
    ensures GroupsSoFar(xs, i + 1, tableGroups', tableOrder', standalone')
  {
    var x := xs[i];
    assert xs[..i + 1][..i] == xs[..i] && xs[..i + 1][i] == x;
    tableGroups', tableOrder', standalone' := tableGroups, tableOrder, standalone;
    if x.info.objectType == "FUNCTION" || x.info.objectType == "PROCEDURE" {
      standalone' := standalone + [[x]];
    } else if x.info.tableName != [] {
      var t := x.info.tableName;
      if t !in tableGroups {
        NewTableEmpty(xs[..i], t);
        tableOrder' := tableOrder + [t];
        tableGroups' := tableGroups[t := []];
      }
      tableGroups' := tableGroups'[t := tableGroups'[t] + [x]];
    } else {
      standalone' := standalone + [[x]];
    }
    forall t | t in tableGroups'
      ensures tableGroups'[t] == TableGroup(xs[..i + 1], t)
    {
      TableGroupSnoc(xs, i, t);
    }
  }

  /** The second loop: the groups of the map, in table order. */
  method OrderedGroups(tableGroups: map<String, seq<Stmt>>, tableOrder: seq<String>) returns (groups: seq<seq<Stmt>>)
    requires forall t :: t in tableOrder ==> t in tableGroups
    ensures |groups| == |tableOrder| && forall j :: 0 <= j < |tableOrder| ==> groups[j] == tableGroups[tableOrder[j]]
  {
    groups := [];
    var j := 0;
    while j < |tableOrder|
      invariant 0 <= j <= |tableOrder|
      invariant |groups| == j && forall k :: 0 <= k < j ==> groups[k] == tableGroups[tableOrder[k]]
    {
      groups := groups + [tableGroups[tableOrder[j]]];
      j := j + 1;
    }
  }

  // ---------------------------------------------------------------------
  // The text of a group

  function Contents(g: seq<Stmt>): seq<String>
  {
    seq(|g|, k requires 0 <= k < |g| => g[k].content)
  }

  /** Every statement followed by a newline, the way a split group writes them. */
  function Lines(g: seq<Stmt>): String
  {
    if |g| == 0 then [] else Lines(g[..|g| - 1]) + g[|g| - 1].content + "\n"
  }

  lemma TrimmedNoNewline(c: String)
    ensures !HasSuffix(TrimSpace(c), "\n")
  {
    var t := TrimSpace(c);
    if |t| > 0 {
      assert t[|t| - 1..][0] == t[|t| - 1];
    }
  }

  /** The join of one more statement's text. */
  lemma JoinContentsStep(g: seq<Stmt>, i: nat)
    requires 0 < i < |g|
    ensures Join(Contents(g[..i + 1]), "\n") == Join(Contents(g[..i]), "\n") + "\n" + g[i].content
  {
    var parts := Contents(g[..i + 1]);
    assert parts[..i] == Contents(g[..i]);
  }

  /**
   * `buildGroupContent`: each statement, then a newline unless it is the
   * last or its trimmed text already ends in one. A trimmed text never ends
   * in whitespace, so the statements come out joined by single newlines.
   */
  method BuildGroupContent(g: seq<Stmt>) returns (r: String)
    ensures r == Join(Contents(g), "\n")
  {
    r := [];
    var i := 0;
    while i < |g|
      invariant 0 <= i <= |g|
      invariant r == Built(g, i)
    {
      var c := g[i].content;
      BuiltStep(g, i);
      r := r + c;
      var t := TrimSpace(c);
      TrimmedNoNewline(c);
      if i < |g| - 1 && !HasSuffix(t, "\n") {
        r := r + "\n";
      }
      i := i + 1;
    }
    assert g[..i] == g;
  }

  /** The text built from the first `i` statements: joined, and a newline after it if more follow. */
  function Built(g: seq<Stmt>, i: nat): String
    requires i <= |g|
  {
    if i == 0 then [] else Join(Contents(g[..i]), "\n") + (if i < |g| then "\n" else [])
  }

  lemma BuiltStep(g: seq<Stmt>, i: nat)
    requires i < |g|
    ensures Built(g, i + 1) == Built(g, i) + g[i].content + (if i < |g| - 1 then "\n" else [])
  {
    if i == 0 {
      assert Contents(g[..1]) == [g[0].content];
      assert Join([g[0].content], "\n") == g[0].content;
    } else {
      JoinContentsStep(g, i);
    }
  }

  /** A split group carries the group's text and one more newline. */
  lemma {:induction false} GroupContentLines(g: seq<Stmt>)
    requires |g| > 0
    ensures Join(Contents(g), "\n") + "\n" == Lines(g)
  {
    var init := g[..|g| - 1];
    assert Contents(g)[..|g| - 1] == Contents(init);
    if |g| == 1 {
      assert Lines(init) == [];
    } else {
      GroupContentLines(init);
    }
  }

  // ---------------------------------------------------------------------
  // Dialect detection

  /** The keys of the score table. */
  datatype Dialect = PostgreSQL | MySQL | SQLite | SQLServer | Oracle

  function Name(d: Dialect): (r: String)
    ensures |r| > 0
  {
    match d
    case PostgreSQL => "postgresql"
    case MySQL => "mysql"
    case SQLite => "sqlite"
    case SQLServer => "sqlserver"
    case Oracle => "oracle"
  }

  /** The upper-case fragments that count towards each dialect. */
  function Patterns(d: Dialect): seq<String>
  {
    match d
    case PostgreSQL => ["SERIAL", "RETURNING", "::"]
    case MySQL => ["AUTO_INCREMENT", "ENGINE=", "CHARSET="]
    case SQLite => ["AUTOINCREMENT", "INTEGER PRIMARY KEY"]
    case SQLServer => ["IDENTITY(", "NVARCHAR", "TOP ", "WITH (NOLOCK)"]
    case Oracle => ["NUMBER(", "VARCHAR2", "NVL(", "DECODE("]
  }

  /** How many of `pats` occur in `upper`. */
  function Score(upper: String, pats: seq<String>): nat
  {
    if |pats| == 0 then 0
    else Score(upper, pats[..|pats| - 1]) + (if Contains(upper, pats[|pats| - 1]) then 1 else 0)
  }

  lemma {:induction false} ScoreZero(upper: String, pats: seq<String>)
    ensures Score(upper, pats) == 0 <==> forall k :: 0 <= k < |pats| ==> !Contains(upper, pats[k])
  {
    if |pats| > 0 {
      var init := pats[..|pats| - 1];
      ScoreZero(upper, init);
      assert forall k :: 0 <= k < |init| ==> init[k] == pats[k];
    }
  }

  /** The scores in the order the score table is visited. */
  function Scores(upper: String, order: seq<Dialect>): (r: seq<nat>)
    ensures |r| == |order| && forall k :: 0 <= k < |order| ==> r[k] == Score(upper, Patterns(order[k]))
  {
    seq(|order|, k requires 0 <= k < |order| => Score(upper, Patterns(order[k])))
  }

  /**
   * The scan over the score table: position and value of the first of the
   * highest scores, or (-1, 0) when every score is 0.
   */
  function Best(sc: seq<nat>): (b: (int, nat))
    ensures -1 <= b.0 < |sc| && (b.0 == -1 <==> b.1 == 0)
  {
    if |sc| == 0 then (-1, 0)
    else
      var b := Best(sc[..|sc| - 1]);
      if sc[|sc| - 1] > b.1 then (|sc| - 1, sc[|sc| - 1]) else b
  }

  /** The scan keeps the first of the highest scores. */
  lemma {:induction false} BestSound(sc: seq<nat>)
    ensures var b := Best(sc);
      (b.0 >= 0 ==> sc[b.0] == b.1) &&
      (forall k :: 0 <= k < |sc| ==> sc[k] <= b.1) &&
      (forall k :: 0 <= k < b.0 ==> sc[k] < b.1)
  {
    if |sc| > 0 {
      var init := sc[..|sc| - 1];
      BestSound(init);
      assert forall k :: 0 <= k < |init| ==> init[k] == sc[k];
    }
  }

  /** The dialect `detectDialect` reports when the score table is visited in `order`. */
  function DetectedDialect(text: String, order: seq<Dialect>): String
  {
    var b := Best(Scores(ToUpper(text), order));
    if b.1 < 1 then [] else Name(order[b.0])
  }

  /** Visiting the score table visits each of its five keys once. */
  predicate KeyOrder(order: seq<Dialect>)
  {
    |order| == 5 && forall d: Dialect :: d in order
  }

  /** No dialect is reported exactly when no dialect's fragment occurs. */
  lemma DetectedNothingIff(text: String, order: seq<Dialect>)
    requires KeyOrder(order)
    ensures DetectedDialect(text, order) == [] <==>
      forall d: Dialect, k :: 0 <= k < |Patterns(d)| ==> !Contains(ToUpper(text), Patterns(d)[k])
  {
    var upper := ToUpper(text);
    var b := Best(Scores(upper, order));
    BestSound(Scores(upper, order));
    if b.0 >= 0 {
      ScoreZero(upper, Patterns(order[b.0]));
    } else {
      forall d: Dialect
        ensures forall k :: 0 <= k < |Patterns(d)| ==> !Contains(upper, Patterns(d)[k])
      {
        assert d in order;
        var j :| 0 <= j < |order| && order[j] == d;
        ScoreZero(upper, Patterns(d));
      }
    }
  }

  /** A reported dialect has the highest score of all. */
  lemma DetectedIsBest(text: String, order: seq<Dialect>)
    requires KeyOrder(order)
    ensures DetectedDialect(text, order) != [] ==>
      exists d: Dialect :: DetectedDialect(text, order) == Name(d) &&
        forall e: Dialect :: Score(ToUpper(text), Patterns(e)) <= Score(ToUpper(text), Patterns(d))
  {
    var upper := ToUpper(text);
    var b := Best(Scores(upper, order));
    BestSound(Scores(upper, order));
    if b.0 >= 0 {
      var d := order[b.0];
      forall e: Dialect
        ensures Score(upper, Patterns(e)) <= b.1
      {
        assert e in order;
        var j :| 0 <= j < |order| && order[j] == e;
      }
      assert DetectedDialect(text, order) == Name(d);
    }
  }

  /** One of the pattern loops: count the fragments that occur. */
  method CountPatterns(upper: String, pats: seq<String>) returns (n: nat)
    ensures n == Score(upper, pats)
  {
    n := 0;
    for i := 0 to |pats|
      invariant n == Score(upper, pats[..i])
    {
      assert pats[..i + 1][..i] == pats[..i];
      if Contains(upper, pats[i]) {
        n := n + 1;
      }
    }
    assert pats[..|pats|] == pats;
  }

  /** The score map: every dialect's fragment count. */
  method ScoreTable(upper: String) returns (scores: map<Dialect, nat>)
    ensures forall d: Dialect :: d in scores && scores[d] == Score(upper, Patterns(d))
  {
    var pg := CountPatterns(upper, Patterns(PostgreSQL));
    var my := CountPatterns(upper, Patterns(MySQL));
    var lite := CountPatterns(upper, Patterns(SQLite));
    var ms := CountPatterns(upper, Patterns(SQLServer));
    var ora := CountPatterns(upper, Patterns(Oracle));
    scores := map[PostgreSQL := pg, MySQL := my, SQLite := lite, SQLServer := ms, Oracle := ora];
    forall d: Dialect
      ensures d in scores && scores[d] == Score(upper, Patterns(d))
    {
      match d
      case PostgreSQL =>
      case MySQL =>
      case SQLite =>
      case SQLServer =>
      case Oracle =>
    }
  }

  /**
   * `detectDialect`, with `order` the order in which the score map is
   * visited; the best key so far is held by its position in `order`.
   */
  method DetectDialect(text: String, order: seq<Dialect>) returns (d: String)
    requires KeyOrder(order)
    ensures d == DetectedDialect(text, order)
  {
    var upper := ToUpper(text);
    var scores := ScoreTable(upper);
    ghost var sc := Scores(upper, order);
    forall k | 0 <= k < |order|
      ensures order[k] in scores && scores[order[k]] == sc[k]
    {
    }
    var best, maxScore := ScanScores(scores, order, sc);
    if maxScore < 1 {
      return [];
    }
    d := Name(order[best]);
  }

  /** The loop over the score map: the first key with the highest score. */
  method ScanScores(scores: map<Dialect, nat>, order: seq<Dialect>, ghost sc: seq<nat>) returns (best: int, maxScore: nat)
    requires |sc| == |order|
    requires forall k :: 0 <= k < |order| ==> order[k] in scores && scores[order[k]] == sc[k]
    ensures (best, maxScore) == Best(sc)
  {
    maxScore := 0;
    best := -1;
    for j := 0 to |order|
      invariant (best, maxScore) == Best(sc[..j])
    {
      assert sc[..j + 1][..j] == sc[..j];
      var score := scores[order[j]];
      if score > maxScore {
        maxScore := score;
        best := j;
      }
    }
    assert sc[..|order|] == sc;
  }

  // ---------------------------------------------------------------------
  // Splitting a large group

  /**
   * The statements of each chunk `splitLargeGroup` builds from `group`
   * after the statements `cur` already taken: a chunk is closed when the
   * next statement's text would take it past `maxSize` and it is not empty.
   */
  function Runs(group: seq<Stmt>, maxSize: int, cur: seq<Stmt>): seq<seq<Stmt>>
    decreases |group|
  {
    if |group| == 0 then (if |cur| == 0 then [] else [cur])
    else if |Lines(cur)| + |group[0].content| > maxSize && |Lines(cur)| > 0 then
      [cur] + Runs(group[1..], maxSize, [group[0]])
    else Runs(group[1..], maxSize, cur + [group[0]])
  }

  lemma LinesSnoc(cur: seq<Stmt>, s: Stmt)
    ensures Lines(cur + [s]) == Lines(cur) + s.content + "\n"
  {
    assert (cur + [s])[..|cur|] == cur;
  }

  lemma {:induction false} LinesEmpty(cur: seq<Stmt>)
    ensures |Lines(cur)| == 0 <==> |cur| == 0
  {
    if |cur| > 0 {
      LinesEmpty(cur[..|cur| - 1]);
    }
  }

  /** The chunks hold every statement once, in order. */
  lemma {:induction false} RunsFlatten(group: seq<Stmt>, maxSize: int, cur: seq<Stmt>)
    ensures Flatten(Runs(group, maxSize, cur)) == cur + group
    decreases |group|
  {
    if |group| == 0 {
      if |cur| > 0 {
        assert Flatten([cur]) == cur + Flatten([]);
      }
    } else if |Lines(cur)| + |group[0].content| > maxSize && |Lines(cur)| > 0 {
      var rest := Runs(group[1..], maxSize, [group[0]]);
      RunsFlatten(group[1..], maxSize, [group[0]]);
      assert ([cur] + rest)[1..] == rest;
      assert [group[0]] + group[1..] == group;
    } else {
      RunsFlatten(group[1..], maxSize, cur + [group[0]]);
      assert cur + [group[0]] + group[1..] == cur + group;
    }
  }

  /** No chunk is empty, and the first one starts with the statements already taken. */
  lemma {:induction false} RunsPartition(group: seq<Stmt>, maxSize: int, cur: seq<Stmt>)
    ensures AllNonEmpty(Runs(group, maxSize, cur))
    ensures |cur| > 0 ==> |Runs(group, maxSize, cur)| > 0 && Runs(group, maxSize, cur)[0][0] == cur[0]
    decreases |group|
  {
    LinesEmpty(cur);
    if |group| > 0 {
      if |Lines(cur)| + |group[0].content| > maxSize && |Lines(cur)| > 0 {
        RunsPartition(group[1..], maxSize, [group[0]]);
      } else {
        RunsPartition(group[1..], maxSize, cur + [group[0]]);
      }
    }
  }

  /**
   * A chunk of two or more statements stays within `maxSize` plus the
   * newline written after its last statement; only a single statement
   * longer than that makes a larger chunk.
   */
  lemma {:induction false} RunsBound(group: seq<Stmt>, maxSize: int, cur: seq<Stmt>)
    requires |cur| <= 1 || |Lines(cur)| <= maxSize + 1
    ensures forall k :: 0 <= k < |Runs(group, maxSize, cur)| ==>
      |Runs(group, maxSize, cur)[k]| <= 1 || |Lines(Runs(group, maxSize, cur)[k])| <= maxSize + 1
    decreases |group|
  {
    LinesEmpty(cur);
    if |group| > 0 {
      if |Lines(cur)| + |group[0].content| > maxSize && |Lines(cur)| > 0 {
        RunsBound(group[1..], maxSize, [group[0]]);
      } else {
        LinesSnoc(cur, group[0]);
        RunsBound(group[1..], maxSize, cur + [group[0]]);
      }
    }
  }

  /** Each chunk after the first was opened because its first statement did not fit in the one before. */
  predicate Greedy(rs: seq<seq<Stmt>>, maxSize: int)
  {
    forall k :: 1 <= k < |rs| ==> |rs[k]| > 0 && |Lines(rs[k - 1])| + |rs[k][0].content| > maxSize
  }

  lemma {:induction false} RunsGreedy(group: seq<Stmt>, maxSize: int, cur: seq<Stmt>)
    ensures Greedy(Runs(group, maxSize, cur), maxSize)
    decreases |group|
  {
    if |group| > 0 {
      if |Lines(cur)| + |group[0].content| > maxSize && |Lines(cur)| > 0 {
        var rest := Runs(group[1..], maxSize, [group[0]]);
        RunsGreedy(group[1..], maxSize, [group[0]]);
        RunsPartition(group[1..], maxSize, [group[0]]);
        assert Runs(group, maxSize, cur) == [cur] + rest;
      } else {
        RunsGreedy(group[1..], maxSize, cur + [group[0]]);
        assert Runs(group, maxSize, cur) == Runs(group[1..], maxSize, cur + [group[0]]);
      }
    }
  }

  function Meta(s: Stmt, dialect: String): SqlMeta
  {
    SqlMeta(s.info.statementType, s.info.objectType, s.info.tableName, s.info.procedureName, dialect)
  }

  /** No group (or run) is empty. */
  predicate AllNonEmpty(runs: seq<seq<Stmt>>)
  {
    forall k :: 0 <= k < |runs| ==> |runs[k]| > 0
  }

  /** The text and metadata of a chunk before its place is known. */
  datatype Draft = Draft(content: String, meta: SqlMeta)

  /** One draft per run: its lines, and the metadata of its first statement. */
  function RunDrafts(runs: seq<seq<Stmt>>, dialect: String): (r: seq<Draft>)
    requires AllNonEmpty(runs)
    ensures |r| == |runs|
  {
    if |runs| == 0 then []
    else [Draft(Lines(runs[0]), Meta(runs[0][0], dialect))] + RunDrafts(runs[1..], dialect)
  }

  /** The total length of the drafts' texts. */
  function Width(ds: seq<Draft>): nat
  {
    if |ds| == 0 then 0 else |ds[0].content| + Width(ds[1..])
  }

  /** The drafts placed one after another from `offset`, numbered from `count`. */
  function Place(ds: seq<Draft>, offset: int, count: int): (r: seq<Chunk<SqlMeta>>)
    ensures |r| == |ds|
  {
    if |ds| == 0 then []
    else
      var end := offset + |ds[0].content|;
      [Chunk(count, ds[0].content, offset, end, ds[0].meta)] + Place(ds[1..], end, count + 1)
  }

  /**
   * Placed drafts keep their text and metadata, are numbered in order,
   * span exactly their text, and follow one another from `offset` to
   * `offset + Width(ds)`.
   */
  lemma PlaceSound(ds: seq<Draft>, offset: int, count: int)
    ensures var r := Place(ds, offset, count);
      && (forall k :: 0 <= k < |r| ==>
            r[k].index == count + k && r[k].content == ds[k].content && r[k].meta == ds[k].meta)
      && Widths(r) && Contiguous(r)
      && (|r| > 0 ==> r[0].start == offset && r[|r| - 1].end == offset + Width(ds))
  {
    PlaceElems(ds, offset, count);
    PlaceChain(ds, offset, count);
  }

  lemma {:induction false} PlaceElems(ds: seq<Draft>, offset: int, count: int)
    ensures var r := Place(ds, offset, count);
      forall k :: 0 <= k < |r| ==>
        && r[k].index == count + k && r[k].content == ds[k].content && r[k].meta == ds[k].meta
        && r[k].end - r[k].start == |r[k].content|
    decreases |ds|
  {
    if |ds| > 0 {
      var end := offset + |ds[0].content|;
      var rest := Place(ds[1..], end, count + 1);
      PlaceElems(ds[1..], end, count + 1);
      var r := Place(ds, offset, count);
      forall k | 0 < k < |r| ensures r[k] == rest[k - 1] && ds[k] == ds[1..][k - 1] {
      }
    }
  }

  lemma {:induction false} PlaceChain(ds: seq<Draft>, offset: int, count: int)
    ensures var r := Place(ds, offset, count);
      Contiguous(r) && (|r| > 0 ==> r[0].start == offset && r[|r| - 1].end == offset + Width(ds))
    decreases |ds|
  {
    if |ds| > 0 {
      var end := offset + |ds[0].content|;
      var rest := Place(ds[1..], end, count + 1);
      PlaceChain(ds[1..], end, count + 1);
      var r := Place(ds, offset, count);
      forall k | 0 < k < |r| ensures r[k] == rest[k - 1] {
      }
      forall k | 0 < k < |r| ensures Follows(r, k) {
        if k > 1 {
          assert Follows(rest, k - 1);
        }
      }
    }
  }

  /**
   * The chunks `splitLargeGroup` returns for the drafts: placed from
   * `offset` and left unnumbered, since the caller numbers them.
   */
  function SplitChunks(ds: seq<Draft>, offset: int): (r: seq<Chunk<SqlMeta>>)
    ensures |r| == |ds|
  {
    if |ds| == 0 then []
    else
      var end := offset + |ds[0].content|;
      [Chunk(0, ds[0].content, offset, end, ds[0].meta)] + SplitChunks(ds[1..], end)
  }

  /** Chunks renumbered from `base`, the way the caller numbers split chunks. */
  function Renumber(cs: seq<Chunk<SqlMeta>>, base: int): (r: seq<Chunk<SqlMeta>>)
    ensures |r| == |cs| && forall k :: 0 <= k < |cs| ==> r[k] == cs[k].(index := base + k)
  {
    seq(|cs|, k requires 0 <= k < |cs| => cs[k].(index := base + k))
  }

  /** Numbering the split chunks from `count` gives the placed drafts. */
  lemma {:induction false} SplitChunksPlaced(ds: seq<Draft>, offset: int, count: int)
    ensures Renumber(SplitChunks(ds, offset), count) == Place(ds, offset, count)
    decreases |ds|
  {
    if |ds| > 0 {
      var end := offset + |ds[0].content|;
      var sc := SplitChunks(ds[1..], end);
      var a := Renumber(SplitChunks(ds, offset), count);
      var b := Place(ds, offset, count);
      assert SplitChunks(ds, offset)[1..] == sc;
      assert a[1..] == Renumber(sc, count + 1) by {
        forall k | 0 <= k < |sc| ensures a[1..][k] == Renumber(sc, count + 1)[k] {
          assert a[1..][k] == a[k + 1];
        }
      }
      assert b[1..] == Place(ds[1..], end, count + 1);
      assert Renumber(sc, count + 1) == Place(ds[1..], end, count + 1) by {
        SplitChunksPlaced(ds[1..], end, count + 1);
      }
      assert a[0] == b[0];
      assert a == [a[0]] + a[1..] && b == [b[0]] + b[1..];
    }
  }

  /** Writing one statement into the chunk being built: its text, then a newline unless the trimmed text ends in one. */
  method WriteStatement(current: String, content: String) returns (next: String)
    ensures next == current + content + "\n"
  {
    next := current + content;
    TrimmedNoNewline(content);
    if !HasSuffix(TrimSpace(content), "\n") {
      next := next + "\n";
    }
  }

  /**
   * The chunks `splitLargeGroup` returns when it resumes at statement `i`
   * with `chunks` closed, the text `current` being built from `offset`, and
   * `first` the first statement of that text.
   */
  function SplitFrom(group: seq<Stmt>, dialect: String, maxSize: int, i: nat,
                     chunks: seq<Chunk<SqlMeta>>, current: String, offset: int, first: Option<Stmt>): seq<Chunk<SqlMeta>>
    requires i <= |group| && (|current| > 0 ==> first.Some?)
    decreases |group| - i
  {
    if i == |group| then
      if |current| > 0 && first.Some? then chunks + [Chunk(0, current, offset, offset + |current|, Meta(first.value, dialect))]
      else chunks
    else
      var stmt := group[i];
      if |current| + |stmt.content| > maxSize && |current| > 0 then
        SplitFrom(group, dialect, maxSize, i + 1,
                  chunks + [Chunk(0, current, offset, offset + |current|, Meta(first.value, dialect))],
                  stmt.content + "\n", offset + |current|, Some(stmt))
      else
        SplitFrom(group, dialect, maxSize, i + 1, chunks, current + stmt.content + "\n", offset,
                  if first.None? then Some(stmt) else first)
  }

  /** The open run `cur` and the statement recorded as its first agree. */
  predicate FirstOf(cur: seq<Stmt>, first: Option<Stmt>)
  {
    (|cur| > 0 <==> first.Some?) && (|cur| > 0 ==> first.value == cur[0])
  }

  /**
   * Resuming at statement `i` with the open run `cur` yields the chunks
   * closed so far followed by one chunk per remaining run.
   */
  predicate SplitAgrees(group: seq<Stmt>, dialect: String, maxSize: int, i: nat,
                        chunks: seq<Chunk<SqlMeta>>, cur: seq<Stmt>, offset: int, first: Option<Stmt>)
    requires i <= |group|
  {
    && AllNonEmpty(Runs(group[i..], maxSize, cur))
    && (|Lines(cur)| > 0 ==> first.Some?)
    && SplitFrom(group, dialect, maxSize, i, chunks, Lines(cur), offset, first)
       == chunks + SplitChunks(RunDrafts(Runs(group[i..], maxSize, cur), dialect), offset)
  }

  lemma {:induction false} SplitFromRuns(group: seq<Stmt>, dialect: String, maxSize: int, i: nat,
                                         chunks: seq<Chunk<SqlMeta>>, cur: seq<Stmt>, offset: int, first: Option<Stmt>)
    requires i <= |group| && FirstOf(cur, first)
    ensures SplitAgrees(group, dialect, maxSize, i, chunks, cur, offset, first)
    decreases |group| - i
  {
    LinesEmpty(cur);
    if i == |group| {
      SplitFromEnd(group, dialect, maxSize, chunks, cur, offset, first);
    } else {
      var stmt := group[i];
      if |Lines(cur)| + |stmt.content| > maxSize && |Lines(cur)| > 0 {
        var end := offset + |Lines(cur)|;
        var c := Chunk(0, Lines(cur), offset, end, Meta(first.value, dialect));
        SplitFromRuns(group, dialect, maxSize, i + 1, chunks + [c], [stmt], end, Some(stmt));
        SplitCloseCase(group, dialect, maxSize, i, chunks, cur, offset, first);
      } else {
        var f := if first.None? then Some(stmt) else first;
        assert FirstOf(cur + [stmt], f);
        SplitFromRuns(group, dialect, maxSize, i + 1, chunks, cur + [stmt], offset, f);
        SplitAddCase(group, dialect, maxSize, i, chunks, cur, offset, first);
      }
    }
  }

  /** The step of `SplitFromRuns` where statement `i` does not fit and the open run is closed. */
  lemma SplitCloseCase(group: seq<Stmt>, dialect: String, maxSize: int, i: nat,
                       chunks: seq<Chunk<SqlMeta>>, cur: seq<Stmt>, offset: int, first: Option<Stmt>)
    requires i < |group| && FirstOf(cur, first) && first.Some? && |Lines(cur)| > 0
    requires |Lines(cur)| + |group[i].content| > maxSize
    requires SplitAgrees(group, dialect, maxSize, i + 1,
                         chunks + [Chunk(0, Lines(cur), offset, offset + |Lines(cur)|, Meta(first.value, dialect))],
                         [group[i]], offset + |Lines(cur)|, Some(group[i]))
    ensures SplitAgrees(group, dialect, maxSize, i, chunks, cur, offset, first)
  {
    hide SplitFrom, SplitChunks, RunDrafts, Runs;
    var stmt := group[i];
    var rest := group[i..];
    var end := offset + |Lines(cur)|;
    var c := Chunk(0, Lines(cur), offset, end, Meta(first.value, dialect));
    assert rest[0] == stmt && rest[1..] == group[i + 1..];
    RunsUnfold(rest, maxSize, cur);
    var later := Runs(group[i + 1..], maxSize, [stmt]);
    assert Lines([stmt]) == stmt.content + "\n" by {
      LinesSnoc([], stmt);
      assert [] + [stmt] == [stmt];
    }
    SplitFromClose(group, dialect, maxSize, i, chunks, Lines(cur), offset, first, Lines([stmt]));
    SplitClose(cur, later, dialect, offset, Meta(first.value, dialect));
    assert SplitFrom(group, dialect, maxSize, i, chunks, Lines(cur), offset, first) == SplitFrom(group, dialect, maxSize, i + 1, chunks + [c], Lines([stmt]), end, Some(stmt));
    assert SplitFrom(group, dialect, maxSize, i + 1, chunks + [c], Lines([stmt]), end, Some(stmt)) == (chunks + [c]) + SplitChunks(RunDrafts(later, dialect), end);
    assert SplitChunks(RunDrafts([cur] + later, dialect), offset) == [c] + SplitChunks(RunDrafts(later, dialect), end);
    CloseAppend(SplitFrom(group, dialect, maxSize, i, chunks, Lines(cur), offset, first),
                SplitFrom(group, dialect, maxSize, i + 1, chunks + [c], Lines([stmt]), end, Some(stmt)),
                chunks, c, SplitChunks(RunDrafts(later, dialect), end),
                SplitChunks(RunDrafts([cur] + later, dialect), offset));
  }

  /** `SplitFrom` one step on, when statement `i` does not fit. */
  lemma SplitFromClose(group: seq<Stmt>, dialect: String, maxSize: int, i: nat,
                       chunks: seq<Chunk<SqlMeta>>, current: String, offset: int, first: Option<Stmt>, next: String)
    requires i < |group| && first.Some? && |current| > 0
    requires |current| + |group[i].content| > maxSize
    requires next == group[i].content + "\n"
    ensures SplitFrom(group, dialect, maxSize, i, chunks, current, offset, first)
         == SplitFrom(group, dialect, maxSize, i + 1,
                      chunks + [Chunk(0, current, offset, offset + |current|, Meta(first.value, dialect))],
                      next, offset + |current|, Some(group[i]))
  {
  }

  lemma CloseAppend<T>(s: seq<T>, a: seq<T>, chunks: seq<T>, c: T, t: seq<T>, x: seq<T>)
    requires s == a && a == (chunks + [c]) + t && x == [c] + t
    ensures s == chunks + x
  {
    assert (chunks + [c]) + t == chunks + ([c] + t);
  }

  /** The step of `SplitFromRuns` where statement `i` joins the open run. */
  lemma SplitAddCase(group: seq<Stmt>, dialect: String, maxSize: int, i: nat,
                     chunks: seq<Chunk<SqlMeta>>, cur: seq<Stmt>, offset: int, first: Option<Stmt>)
    requires i < |group| && FirstOf(cur, first) && (|Lines(cur)| > 0 ==> first.Some?)
    requires !(|Lines(cur)| + |group[i].content| > maxSize && |Lines(cur)| > 0)
    requires SplitAgrees(group, dialect, maxSize, i + 1, chunks, cur + [group[i]], offset,
                         if first.None? then Some(group[i]) else first)
    ensures SplitAgrees(group, dialect, maxSize, i, chunks, cur, offset, first)
  {
    hide SplitFrom, SplitChunks, RunDrafts, Runs;
    var stmt := group[i];
    var rest := group[i..];
    assert rest[0] == stmt && rest[1..] == group[i + 1..];
    RunsUnfold(rest, maxSize, cur);
    LinesSnoc(cur, stmt);
    SplitFromAdd(group, dialect, maxSize, i, chunks, Lines(cur), offset, first);
  }

  /** `SplitFrom` one step on, when statement `i` joins the open chunk. */
  lemma SplitFromAdd(group: seq<Stmt>, dialect: String, maxSize: int, i: nat,
                     chunks: seq<Chunk<SqlMeta>>, current: String, offset: int, first: Option<Stmt>)
    requires i < |group| && (|current| > 0 ==> first.Some?)
    requires !(|current| + |group[i].content| > maxSize && |current| > 0)
    ensures SplitFrom(group, dialect, maxSize, i, chunks, current, offset, first)
         == SplitFrom(group, dialect, maxSize, i + 1, chunks, current + group[i].content + "\n", offset,
                      if first.None? then Some(group[i]) else first)
  {
  }

  lemma RunsUnfold(rest: seq<Stmt>, maxSize: int, cur: seq<Stmt>)
    requires |rest| > 0
    ensures Runs(rest, maxSize, cur) ==
      if |Lines(cur)| + |rest[0].content| > maxSize && |Lines(cur)| > 0
      then [cur] + Runs(rest[1..], maxSize, [rest[0]])
      else Runs(rest[1..], maxSize, cur + [rest[0]])
  {
  }

  lemma SplitFromEnd(group: seq<Stmt>, dialect: String, maxSize: int,
                     chunks: seq<Chunk<SqlMeta>>, cur: seq<Stmt>, offset: int, first: Option<Stmt>)
    requires FirstOf(cur, first) && (|Lines(cur)| > 0 <==> |cur| > 0)
    ensures SplitAgrees(group, dialect, maxSize, |group|, chunks, cur, offset, first)
  {
    assert |group[|group|..]| == 0;
    if |cur| > 0 {
      assert Runs(group[|group|..], maxSize, cur) == [cur];
      assert RunDrafts([cur], dialect) == [Draft(Lines(cur), Meta(cur[0], dialect))];
    } else {
      assert Runs(group[|group|..], maxSize, cur) == [];
    }
  }

  /** Closing the open run adds its chunk before the chunks of the runs after it. */
  lemma SplitClose(cur: seq<Stmt>, later: seq<seq<Stmt>>, dialect: String, offset: int, meta: SqlMeta)
    requires |cur| > 0 && AllNonEmpty(later) && meta == Meta(cur[0], dialect)
    ensures AllNonEmpty([cur] + later)
    ensures SplitChunks(RunDrafts([cur] + later, dialect), offset)
         == [Chunk(0, Lines(cur), offset, offset + |Lines(cur)|, meta)]
            + SplitChunks(RunDrafts(later, dialect), offset + |Lines(cur)|)
  {
    assert ([cur] + later)[1..] == later;
    var ds := RunDrafts([cur] + later, dialect);
    assert ds == [Draft(Lines(cur), Meta(cur[0], dialect))] + RunDrafts(later, dialect);
    assert ds[1..] == RunDrafts(later, dialect);
  }

  /**
   * `splitLargeGroup`: statements appended with a newline each, the
   * current chunk closed when the next statement would not fit, offsets
   * counted from `baseOffset`.
   */
  method SplitLargeGroup(group: seq<Stmt>, dialect: String, maxSize: int, baseOffset: int)
    returns (chunks: seq<Chunk<SqlMeta>>)
    ensures AllNonEmpty(Runs(group, maxSize, []))
    ensures chunks == SplitChunks(RunDrafts(Runs(group, maxSize, []), dialect), baseOffset)
  {
    chunks := [];
    var current: String := [];
    var offset := baseOffset;
    var first: Option<Stmt> := None;
    for i := 0 to |group|
      invariant |current| > 0 ==> first.Some?
      invariant SplitFrom(group, dialect, maxSize, 0, [], [], baseOffset, None)
             == SplitFrom(group, dialect, maxSize, i, chunks, current, offset, first)
    {
      var stmt := group[i];
      if |current| + |stmt.content| > maxSize && |current| > 0 {
        chunks := chunks + [Chunk(0, current, offset, offset + |current|, Meta(first.value, dialect))];
        offset := offset + |current|;
        current := [];
        first := None;
        assert current + stmt.content + "\n" == stmt.content + "\n";
      }
      if first.None? {
        first := Some(stmt);
      }
      current := WriteStatement(current, stmt.content);
    }
    if |current| > 0 && first.Some? {
      chunks := chunks + [Chunk(0, current, offset, offset + |current|, Meta(first.value, dialect))];
    }
    assert group[0..] == group && Lines([]) == [];
    SplitFromRuns(group, dialect, maxSize, 0, [], [], baseOffset, None);
  }

  // ---------------------------------------------------------------------
  // Chunks from the groups

  /**
   * The chunks one group contributes: the split runs when the group's text
   * is longer than `maxSize`, otherwise the whole text unless it is blank.
   */
  function GroupDrafts(g: seq<Stmt>, dialect: String, maxSize: int): seq<Draft>
    requires |g| > 0
  {
    var gc := Join(Contents(g), "\n");
    if |gc| > maxSize then
      RunsPartition(g, maxSize, []);
      RunDrafts(Runs(g, maxSize, []), dialect)
    else if TrimSpace(gc) != [] then [Draft(gc, Meta(g[0], dialect))]
    else []
  }

  /** What one group adds to the layout: its chunks, and the length of its text. */
  datatype Part = Part(drafts: seq<Draft>, textLength: nat)

  function GroupPart(g: seq<Stmt>, dialect: String, maxSize: int): Part
    requires |g| > 0
  {
    Part(GroupDrafts(g, dialect, maxSize), |Join(Contents(g), "\n")|)
  }

  function Parts(groups: seq<seq<Stmt>>, dialect: String, maxSize: int): (r: seq<Part>)
    requires AllNonEmpty(groups)
    ensures |r| == |groups| && forall k :: 0 <= k < |groups| ==> r[k] == GroupPart(groups[k], dialect, maxSize)
  {
    seq(|groups|, k requires 0 <= k < |groups| && |groups[k]| > 0 => GroupPart(groups[k], dialect, maxSize))
  }

  /**
   * The loop of `Chunk` over the groups, resumed with `chunks` emitted and
   * the running offset at `offset`. As written (`fixed` false) the offset
   * grows by the length of the group's text; corrected, by the width of the
   * chunks the group produced.
   */
  function LayoutFrom(parts: seq<Part>, offset: int, chunks: seq<Chunk<SqlMeta>>, fixed: bool): seq<Chunk<SqlMeta>>
    decreases |parts|
  {
    if |parts| == 0 then chunks
    else
      var ds := parts[0].drafts;
      var next := if fixed then offset + Width(ds) else offset + parts[0].textLength;
      LayoutFrom(parts[1..], next, chunks + Place(ds, offset, |chunks|), fixed)
  }

  function Layout(groups: seq<seq<Stmt>>, dialect: String, maxSize: int, fixed: bool): seq<Chunk<SqlMeta>>
    requires AllNonEmpty(groups)
  {
    LayoutFrom(Parts(groups, dialect, maxSize), 0, [], fixed)
  }

  /** The drafts of all the parts, in order. */
  function AllDrafts(parts: seq<Part>): seq<Draft>
  {
    if |parts| == 0 then [] else parts[0].drafts + AllDrafts(parts[1..])
  }

  /** Placing two runs of drafts one after the other. */
  lemma {:induction false} PlaceAppend(a: seq<Draft>, b: seq<Draft>, offset: int, count: int)
    ensures PlacedApart(a, b, offset, count)
    decreases |a|
  {
    if |a| == 0 {
      assert a + b == b;
    } else {
      PlaceAppend(a[1..], b, offset + |a[0].content|, count + 1);
      PlaceAppendStep(a, b, offset, count);
    }
  }

  predicate PlacedApart(a: seq<Draft>, b: seq<Draft>, offset: int, count: int)
  {
    Place(a + b, offset, count) == Place(a, offset, count) + Place(b, offset + Width(a), count + |a|)
  }

  lemma PlaceAppendStep(a: seq<Draft>, b: seq<Draft>, offset: int, count: int)
    requires |a| > 0
    requires PlacedApart(a[1..], b, offset + |a[0].content|, count + 1)
    ensures PlacedApart(a, b, offset, count)
  {
    var end := offset + |a[0].content|;
    var c := Chunk(count, a[0].content, offset, end, a[0].meta);
    ConsSplit(a, b);
    PlaceCons(a + b, offset, count);
    PlaceCons(a, offset, count);
    ConsAppend(Place(a + b, offset, count), Place(a, offset, count), c, Place(a[1..] + b, end, count + 1),
               Place(a[1..], end, count + 1), Place(b, offset + Width(a), count + |a|));
  }

  lemma PlaceCons(ds: seq<Draft>, offset: int, count: int)
    requires |ds| > 0
    ensures Place(ds, offset, count)
         == [Chunk(count, ds[0].content, offset, offset + |ds[0].content|, ds[0].meta)]
            + Place(ds[1..], offset + |ds[0].content|, count + 1)
  {
  }

  lemma ConsSplit<T>(a: seq<T>, b: seq<T>)
    requires |a| > 0
    ensures (a + b)[0] == a[0] && (a + b)[1..] == a[1..] + b
  {
  }

  lemma ConsAppend<T>(p: seq<T>, q: seq<T>, c: T, x: seq<T>, y: seq<T>, z: seq<T>)
    requires p == [c] + x && x == y + z && q == [c] + y
    ensures p == q + z
  {
    assert [c] + (y + z) == ([c] + y) + z;
  }

  /**
   * Corrected, the layout is the drafts of every group placed one after
   * another from the running offset and numbered on from the chunks
   * already emitted.
   */
  lemma {:induction false} LayoutIsPlace(parts: seq<Part>, offset: int, chunks: seq<Chunk<SqlMeta>>)
    ensures LayoutPlaced(parts, offset, chunks)
    decreases |parts|
  {
    if |parts| > 0 {
      var ds := parts[0].drafts;
      LayoutIsPlace(parts[1..], offset + Width(ds), chunks + Place(ds, offset, |chunks|));
      LayoutPlaceStep(parts, offset, chunks);
    } else {
      LayoutPlaceEmpty(parts, offset, chunks);
    }
  }

  predicate LayoutPlaced(parts: seq<Part>, offset: int, chunks: seq<Chunk<SqlMeta>>)
  {
    LayoutFrom(parts, offset, chunks, true) == chunks + Place(AllDrafts(parts), offset, |chunks|)
  }

  lemma LayoutPlaceEmpty(parts: seq<Part>, offset: int, chunks: seq<Chunk<SqlMeta>>)
    requires |parts| == 0
    ensures LayoutPlaced(parts, offset, chunks)
  {
    assert chunks + [] == chunks;
  }

  lemma LayoutPlaceStep(parts: seq<Part>, offset: int, chunks: seq<Chunk<SqlMeta>>)
    requires |parts| > 0
    requires LayoutPlaced(parts[1..], offset + Width(parts[0].drafts), chunks + Place(parts[0].drafts, offset, |chunks|))
    ensures LayoutPlaced(parts, offset, chunks)
  {
    var ds := parts[0].drafts;
    var rest := AllDrafts(parts[1..]);
    var next := chunks + Place(ds, offset, |chunks|);
    LayoutUnfold(parts, offset, chunks, true);
    PlaceAppend(ds, rest, offset, |chunks|);
    assert AllDrafts(parts) == ds + rest;
    AppendAssoc(chunks, Place(ds, offset, |chunks|), Place(rest, offset + Width(ds), |chunks| + |ds|));
  }

  lemma AppendAssoc<T>(x: seq<T>, y: seq<T>, z: seq<T>)
    ensures (x + y) + z == x + (y + z)
  {
  }

  /**
   * Corrected, the chunks are numbered in order, each spans exactly its
   * text, each starts where the one before it ended, and the first starts
   * at 0.
   */
  lemma LayoutSound(groups: seq<seq<Stmt>>, dialect: String, maxSize: int)
    requires AllNonEmpty(groups)
    ensures var r := Layout(groups, dialect, maxSize, true);
      Sequential(r) && Widths(r) && Contiguous(r) && (|r| > 0 ==> r[0].start == 0)
  {
    var ds := AllDrafts(Parts(groups, dialect, maxSize));
    LayoutIsPlace(Parts(groups, dialect, maxSize), 0, []);
    assert [] + Place(ds, 0, 0) == Place(ds, 0, 0);
    PlaceSound(ds, 0, 0);
  }

  const NoInfo := StmtInfo([], [], [], [])

  /** Two single-statement groups; the first is too long for a `maxSize` of 2. */
  const OverlapSample: seq<seq<Stmt>> := [[Stmt("aa;", NoInfo)], [Stmt("b;", NoInfo)]]

  const OverlapParts: seq<Part> :=
    [Part([Draft("aa;\n", Meta(Stmt("aa;", NoInfo), []))], 3), Part([Draft("b;", Meta(Stmt("b;", NoInfo), []))], 2)]

  lemma OverlapFirstPart()
    ensures GroupPart([Stmt("aa;", NoInfo)], [], 2) == OverlapParts[0]
  {
    var g0 := [Stmt("aa;", NoInfo)];
    assert Contents(g0) == ["aa;"];
    assert Join(Contents(g0), "\n") == "aa;";
    assert Lines(g0) == "aa;\n" by {
      LinesSnoc([], g0[0]);
      assert [] + [g0[0]] == g0;
    }
    assert Runs(g0, 2, []) == [g0] by {
      assert Lines([]) == [];
      assert [] + [g0[0]] == g0;
      assert Runs(g0[1..], 2, g0) == [g0];
    }
    assert RunDrafts([g0], []) == [Draft("aa;\n", Meta(g0[0], []))];
  }

  lemma OverlapSecondPart()
    ensures GroupPart([Stmt("b;", NoInfo)], [], 2) == OverlapParts[1]
  {
    var g1 := [Stmt("b;", NoInfo)];
    assert Contents(g1) == ["b;"];
    assert Join(Contents(g1), "\n") == "b;";
    assert !IsSpace("b;"[0]);
    assert TrimSpace("b;") != [];
  }

  lemma OverlapSampleParts()
    ensures AllNonEmpty(OverlapSample)
    ensures Parts(OverlapSample, [], 2) == OverlapParts
  {
    var ps := Parts(OverlapSample, [], 2);
    assert ps[0] == OverlapParts[0] by {
      OverlapFirstPart();
    }
    assert ps[1] == OverlapParts[1] by {
      OverlapSecondPart();
    }
  }

  lemma LayoutUnfold(parts: seq<Part>, offset: int, chunks: seq<Chunk<SqlMeta>>, fixed: bool)
    requires |parts| > 0
    ensures LayoutFrom(parts, offset, chunks, fixed)
         == LayoutFrom(parts[1..], if fixed then offset + Width(parts[0].drafts) else offset + parts[0].textLength,
                       chunks + Place(parts[0].drafts, offset, |chunks|), fixed)
  {
  }

  /**
   * As written, a split group's chunks carry one more newline than the
   * group's text, but the running offset grows only by the text: the next
   * chunk starts inside the last split chunk.
   */
  lemma LayoutOverlapsAsWritten()
    ensures AllNonEmpty(OverlapSample)
    ensures var r := Layout(OverlapSample, [], 2, false);
      |r| == 2 && r[0].content == "aa;\n" && r[0].start == 0 && r[0].end == 4
      && r[1].content == "b;" && r[1].start == 3 && r[1].end == 5
      && !Contiguous(r)
  {
    OverlapSampleParts();
    var ps := OverlapParts;
    var c0 := Chunk(0, "aa;\n", 0, 4, ps[0].drafts[0].meta);
    var c1 := Chunk(1, "b;", 3, 5, ps[1].drafts[0].meta);
    assert Place(ps[0].drafts, 0, 0) == [c0];
    assert Place(ps[1].drafts, 3, 1) == [c1];
    LayoutUnfold(ps, 0, [], false);
    assert [] + [c0] == [c0];
    LayoutUnfold(ps[1..], 3, [c0], false);
    assert ps[1..][1..] == [];
    assert Layout(OverlapSample, [], 2, false) == [c0, c1];
    assert !Follows([c0, c1], 1);
  }

  /** The offsets of the corrected layout of the same groups do follow on. */
  lemma LayoutContiguousFixed()
    ensures AllNonEmpty(OverlapSample)
    ensures var r := Layout(OverlapSample, [], 2, true);
      |r| == 2 && r[0].end == 4 && r[1].start == 4 && r[1].end == 6
  {
    OverlapSampleParts();
    var ps := OverlapParts;
    var c0 := Chunk(0, "aa;\n", 0, 4, ps[0].drafts[0].meta);
    var c1 := Chunk(1, "b;", 4, 6, ps[1].drafts[0].meta);
    assert Place(ps[0].drafts, 0, 0) == [c0];
    assert Width(ps[0].drafts) == 4;
    assert Place(ps[1].drafts, 4, 1) == [c1];
    LayoutUnfold(ps, 0, [], true);
    assert [] + [c0] == [c0];
    LayoutUnfold(ps[1..], 4, [c0], true);
    assert ps[1..][1..] == [];
    assert Layout(OverlapSample, [], 2, true) == [c0, c1];
  }

  /** The statements of the text, each with what the classifier reports about it. */
  function Classified(stmts: seq<String>, classify: String -> StmtInfo): (r: seq<Stmt>)
    ensures |r| == |stmts| && forall k :: 0 <= k < |r| ==> r[k] == Stmt(stmts[k], classify(stmts[k]))
  {
    seq(|stmts|, k requires 0 <= k < |stmts| => Stmt(stmts[k], classify(stmts[k])))
  }

  /** The loop that numbers the split chunks as it appends them. */
  method AppendNumbered(chunks: seq<Chunk<SqlMeta>>, sub: seq<Chunk<SqlMeta>>) returns (r: seq<Chunk<SqlMeta>>)
    ensures r == chunks + Renumber(sub, |chunks|)
  {
    r := chunks;
    for j := 0 to |sub|
      invariant r == chunks + Renumber(sub, |chunks|)[..j]
    {
      r := r + [sub[j].(index := |r|)];
    }
    assert Renumber(sub, |chunks|)[..|sub|] == Renumber(sub, |chunks|);
  }

  /**
   * `Chunk` (with the corrected offset): statements parsed and classified,
   * grouped, and laid out group by group. Empty content gives no chunks.
   */
  method ChunkSql(content: String, maxChunkSize: int, classify: String -> StmtInfo, order: seq<Dialect>)
    returns (result: ChunkResult<SqlMeta>)
    requires KeyOrder(order)
    ensures content == [] ==> result == EmptyResult("sql")
    ensures content != [] ==>
      var maxSize := if maxChunkSize <= 0 then DefaultMaxChunkSize else maxChunkSize;
      var groups := Grouped(Classified(SqlChunker.Statements(content), classify));
      && AllNonEmpty(groups)
      && result.chunks == Layout(groups, DetectedDialect(content, order), maxSize, true)
      && result.totalChunks == |result.chunks| && result.chunkerUsed == "sql" && result.originalSize == |content|
    ensures Sequential(result.chunks) && Widths(result.chunks) && Contiguous(result.chunks)
  {
    if |content| == 0 {
      return EmptyResult("sql");
    }
    var maxSize := maxChunkSize;
    if maxSize <= 0 {
      maxSize := DefaultMaxChunkSize;
    }
    var dialect := DetectDialect(content, order);
    var stmts := SqlChunker.ParseStatements(content);
    var xs := Classified(stmts, classify);
    var groups := GroupStatements(xs);
    GroupsNonEmpty(xs);
    var chunks := EmitGroups(groups, dialect, maxSize);
    LayoutSound(groups, dialect, maxSize);
    result := ChunkResult(chunks, |chunks|, "sql", |content|);
  }

  /** The loop over the groups, with the running offset (corrected). */
  method EmitGroups(groups: seq<seq<Stmt>>, dialect: String, maxSize: int) returns (chunks: seq<Chunk<SqlMeta>>)
    requires AllNonEmpty(groups)
    ensures chunks == Layout(groups, dialect, maxSize, true)
  {
    chunks := [];
    var offset := 0;
    ghost var parts := Parts(groups, dialect, maxSize);
    for gi := 0 to |groups|
      invariant Layout(groups, dialect, maxSize, true) == LayoutFrom(parts[gi..], offset, chunks, true)
    {
      assert parts[gi..][0] == parts[gi] && parts[gi..][1..] == parts[gi + 1..];
      chunks, offset := EmitGroup(groups[gi], dialect, maxSize, chunks, offset);
    }
    assert parts[|groups|..] == [];
  }

  lemma PlaceOne(d: Draft, offset: int, count: int)
    ensures Place([d], offset, count) == [Chunk(count, d.content, offset, offset + |d.content|, d.meta)]
    ensures Width([d]) == |d.content|
  {
    assert [d][1..] == [];
  }

  lemma GroupDraftsOf(g: seq<Stmt>, dialect: String, maxSize: int)
    requires |g| > 0
    ensures var gc := Join(Contents(g), "\n");
      && AllNonEmpty(Runs(g, maxSize, []))
      && (|gc| > maxSize ==> GroupDrafts(g, dialect, maxSize) == RunDrafts(Runs(g, maxSize, []), dialect))
      && (|gc| <= maxSize && TrimSpace(gc) != [] ==> GroupDrafts(g, dialect, maxSize) == [Draft(gc, Meta(g[0], dialect))])
      && (|gc| <= maxSize && TrimSpace(gc) == [] ==> GroupDrafts(g, dialect, maxSize) == [])
  {
    RunsPartition(g, maxSize, []);
    hide TrimSpace, Join, RunDrafts, Runs;
  }

  /** One iteration of the loop over the groups (offset corrected). */
  method EmitGroup(g: seq<Stmt>, dialect: String, maxSize: int, chunks: seq<Chunk<SqlMeta>>, offset: int)
    returns (chunks': seq<Chunk<SqlMeta>>, offset': int)
    requires |g| > 0
    ensures var ds := GroupDrafts(g, dialect, maxSize);
      chunks' == chunks + Place(ds, offset, |chunks|) && offset' == offset + Width(ds)
  {
    GroupDraftsOf(g, dialect, maxSize);
    PlaceOne(Draft(Join(Contents(g), "\n"), Meta(g[0], dialect)), offset, |chunks|);
    hide GroupDrafts, TrimSpace, Join, Place, RunDrafts, Runs, SplitChunks, Renumber;
    chunks', offset' := chunks, offset;
    var gc := BuildGroupContent(g);
    if |gc| > maxSize {
      var sub := SplitLargeGroup(g, dialect, maxSize, offset);
      ghost var ds := RunDrafts(Runs(g, maxSize, []), dialect);
      SplitChunksPlaced(ds, offset, |chunks|);
      PlaceSound(ds, offset, |chunks|);
      chunks' := AppendNumbered(chunks, sub);
      if |sub| > 0 {
        offset' := sub[|sub| - 1].end;
      } else {
        assert |ds| == 0;
      }
    } else if TrimSpace(gc) != [] {
      chunks' := chunks + [Chunk(|chunks|, gc, offset, offset + |gc|, Meta(g[0], dialect))];
      offset' := offset + |gc|;
    }
  }

  lemma GroupsNonEmpty(xs: seq<Stmt>)
    ensures AllNonEmpty(Grouped(xs))
  {
    GroupedShape(xs);
  }
}
