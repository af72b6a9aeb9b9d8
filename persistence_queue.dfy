/**
 * The durable persistence queue (internal/storage/persistence_queue.go): a
 * table of analysis results waiting to be written to the graph. The SQLite
 * table is a map from row id to row; `order` lists the ids by `enqueued_at`,
 * which is the order `DequeueBatch` reads them in. The clock is a `now`
 * parameter of each operation that reads it.
 */
module PersistenceQueue {
  import opened Text
  import opened Wrappers

  datatype Status = Pending | Inflight | Completed | Failed

  datatype Row = Row(
    id: int,
    filePath: String,
    contentHash: String,
    resultJson: String,
    status: Status,
    retryCount: int,
    lastError: Option<String>,
    enqueuedAt: int,
    startedAt: Option<int>,
    completedAt: Option<int>)

  datatype QueueStats = QueueStats(pending: int, inflight: int, completed: int, failed: int, oldestPending: Option<int>)

  predicate InRows(rows: map<int, Row>, ids: seq<int>)
  {
    forall k :: 0 <= k < |ids| ==> ids[k] in rows
  }

  /** `ids` are listed by ascending `enqueued_at`. */
  predicate ByEnqueueTime(rows: map<int, Row>, ids: seq<int>)
    requires InRows(rows, ids)
  {
    forall i, j :: 0 <= i < j < |ids| ==> rows[ids[i]].enqueuedAt <= rows[ids[j]].enqueuedAt
  }

  predicate Distinct(ids: seq<int>)
  {
    forall i, j :: 0 <= i < j < |ids| ==> ids[i] != ids[j]
  }

  /** The ids of `order` whose row has status `s`, in the order of `order`. */
  function IdsWith(rows: map<int, Row>, order: seq<int>, s: Status): (r: seq<int>)
    requires InRows(rows, order)
    ensures |r| <= |order| && InRows(rows, r)
    ensures forall k :: 0 <= k < |r| ==> r[k] in order && rows[r[k]].status == s
    ensures forall k :: 0 <= k < |order| && rows[order[k]].status == s ==> order[k] in r
  {
    if |order| == 0 then []
    else
      var init := IdsWith(rows, order[..|order| - 1], s);
      var last := order[|order| - 1];
      assert forall k :: 0 <= k < |order| - 1 ==> order[..|order| - 1][k] == order[k];
      if rows[last].status == s then init + [last] else init
  }

  lemma {:induction false} IdsWithSorted(rows: map<int, Row>, order: seq<int>, s: Status)
    requires InRows(rows, order) && ByEnqueueTime(rows, order)
    ensures ByEnqueueTime(rows, IdsWith(rows, order, s))
  {
    if |order| > 0 {
      var init := order[..|order| - 1];
      var last := order[|order| - 1];
      var w := IdsWith(rows, init, s);
      assert ByEnqueueTime(rows, init) by {
        assert forall k :: 0 <= k < |init| ==> init[k] == order[k];
      }
      IdsWithSorted(rows, init, s);
      if rows[last].status == s {
        assert IdsWith(rows, order, s) == w + [last];
        LastIsNewest(rows, order, w);
        ByEnqueueSnoc(rows, w, last);
      } else {
        assert IdsWith(rows, order, s) == w;
      }
    }
  }

  /** Ids taken from the front of an ordered list were enqueued no later than its last id. */
  lemma LastIsNewest(rows: map<int, Row>, order: seq<int>, w: seq<int>)
    requires InRows(rows, order) && ByEnqueueTime(rows, order) && |order| > 0
    requires forall k :: 0 <= k < |w| ==> w[k] in order[..|order| - 1]
    ensures InRows(rows, w)
    ensures forall k :: 0 <= k < |w| ==> rows[w[k]].enqueuedAt <= rows[order[|order| - 1]].enqueuedAt
  {
    var init := order[..|order| - 1];
    forall k | 0 <= k < |w| ensures w[k] in rows && rows[w[k]].enqueuedAt <= rows[order[|order| - 1]].enqueuedAt {
      assert w[k] in init;
      var j :| 0 <= j < |init| && init[j] == w[k];
      assert order[j] == w[k];
    }
  }

  lemma ByEnqueueSnoc(rows: map<int, Row>, xs: seq<int>, last: int)
    requires InRows(rows, xs) && last in rows && ByEnqueueTime(rows, xs)
    requires forall k :: 0 <= k < |xs| ==> rows[xs[k]].enqueuedAt <= rows[last].enqueuedAt
    ensures InRows(rows, xs + [last]) && ByEnqueueTime(rows, xs + [last])
  {
    var r := xs + [last];
    forall i, j | 0 <= i < j < |r| ensures rows[r[i]].enqueuedAt <= rows[r[j]].enqueuedAt {
      assert r[i] == xs[i];
      if j < |xs| {
        assert r[j] == xs[j];
      }
    }
  }

  lemma {:induction false} IdsWithDistinct(rows: map<int, Row>, order: seq<int>, s: Status)
    requires InRows(rows, order) && Distinct(order)
    ensures Distinct(IdsWith(rows, order, s))
  {
    if |order| > 0 {
      var init := order[..|order| - 1];
      IdsWithDistinct(rows, init, s);
      assert order[|order| - 1] !in init;
    }
  }

  /** SQL `LIMIT n`. */
  function Limit(ids: seq<int>, n: int): (r: seq<int>)
    requires n >= 0
    ensures |r| == if n < |ids| then n else |ids|
    ensures r == ids[..|r|]
  {
    if n < |ids| then ids[..n] else ids
  }

  function Dequeued(row: Row, now: int): Row
  {
    row.(status := Inflight, startedAt := Some(now))
  }

  /** The rows after the ids in `sel` have been taken for processing. */
  function MarkInflight(rows: map<int, Row>, sel: seq<int>, now: int): map<int, Row>
  {
    map id | id in rows :: if id in sel then Dequeued(rows[id], now) else rows[id]
  }

  /** The row after a failed attempt (Fail's UPDATE). */
  function AfterFailure(row: Row, maxRetries: int, errMsg: String, now: int): (r: Row)
    ensures r.retryCount == row.retryCount + 1
    ensures r.status == Failed <==> row.retryCount + 1 >= maxRetries
    ensures r.status != Failed ==> r.status == Pending && r.completedAt == None
    ensures r.status == Failed ==> r.completedAt == Some(now)
    ensures r.lastError == Some(errMsg) && r.startedAt == None
    ensures r.enqueuedAt == row.enqueuedAt && r.id == row.id
  {
    var retries := row.retryCount + 1;
    var failed := retries >= maxRetries;
    row.(status := if failed then Failed else Pending,
         retryCount := retries,
         lastError := Some(errMsg),
         startedAt := None,
         completedAt := if failed then Some(now) else None)
  }

  /** `k` failed attempts in a row. */
  function FailTimes(row: Row, k: nat, maxRetries: int, errMsg: String, now: int): Row
  {
    if k == 0 then row else AfterFailure(FailTimes(row, k - 1, maxRetries, errMsg, now), maxRetries, errMsg, now)
  }

  /**
   * After k >= 1 failures a row has k more retries and is failed exactly when
   * the retry count has reached maxRetries; until then it is pending again.
   */
  lemma {:induction false} FailTimesStatus(row: Row, k: nat, maxRetries: int, errMsg: String, now: int)
    requires k >= 1
    ensures FailTimes(row, k, maxRetries, errMsg, now).retryCount == row.retryCount + k
    ensures FailTimes(row, k, maxRetries, errMsg, now).status ==
      (if row.retryCount + k >= maxRetries then Failed else Pending)
  {
    if k > 1 {
      FailTimesStatus(row, k - 1, maxRetries, errMsg, now);
    }
  }

  /** Purge's WHERE clause; a NULL `completed_at` never compares below a cutoff. */
  predicate Purgeable(row: Row, completedCutoff: int, failedCutoff: int)
  {
    (row.status == Completed && row.completedAt.Some? && row.completedAt.value < completedCutoff)
    || (row.status == Failed && row.completedAt.Some? && row.completedAt.value < failedCutoff)
  }

  lemma PurgeSparesLive(row: Row, completedCutoff: int, failedCutoff: int)
    requires row.status == Pending || row.status == Inflight
    ensures !Purgeable(row, completedCutoff, failedCutoff)
  {
  }

  predicate SameKey(row: Row, filePath: String, contentHash: String)
  {
    row.filePath == filePath && row.contentHash == contentHash
  }

  function Fresh(id: int, filePath: String, contentHash: String, resultJson: String, now: int): Row
  {
    Row(id, filePath, contentHash, resultJson, Pending, 0, None, now, None, None)
  }

  /** The number of leading ids of `ids` enqueued no later than `t`: where a row enqueued at `t` goes. */
  function SlotFor(rows: map<int, Row>, ids: seq<int>, t: int): (p: nat)
    requires InRows(rows, ids)
    ensures p <= |ids| && forall k :: 0 <= k < p ==> rows[ids[k]].enqueuedAt <= t
    ensures ByEnqueueTime(rows, ids) ==> forall k :: p <= k < |ids| ==> rows[ids[k]].enqueuedAt > t
  {
    if |ids| == 0 || rows[ids[0]].enqueuedAt > t then 0
    else
      var p := 1 + SlotFor(rows, ids[1..], t);
      assert forall k :: 1 <= k < |ids| ==> ids[1..][k - 1] == ids[k];
      p
  }

  function Without(ids: seq<int>, id: int): (r: seq<int>)
    ensures id !in ids ==> r == ids
    ensures forall x :: x in r <==> x in ids && x != id
  {
    if |ids| == 0 then []
    else
      var init := Without(ids[..|ids| - 1], id);
      var last := ids[|ids| - 1];
      assert ids == ids[..|ids| - 1] + [last];
      if last == id then init else init + [last]
  }

  lemma {:induction false} WithoutKeeps(ids: seq<int>, id: int, rows: map<int, Row>, rows': map<int, Row>)
    requires Distinct(ids) && InRows(rows, ids) && ByEnqueueTime(rows, ids)
    requires forall x :: x in rows && x != id ==> x in rows' && rows'[x] == rows[x]
    ensures Distinct(Without(ids, id)) && InRows(rows', Without(ids, id)) && ByEnqueueTime(rows', Without(ids, id))
  {
    if |ids| > 0 {
      var init := ids[..|ids| - 1];
      var last := ids[|ids| - 1];
      WithoutKeeps(init, id, rows, rows');
      var w := Without(init, id);
      if last != id {
        assert last !in init;
        forall k | 0 <= k < |w| ensures rows'[w[k]].enqueuedAt <= rows'[last].enqueuedAt {
          assert w[k] in init;
          assert w[k] in init;
      var j :| 0 <= j < |init| && init[j] == w[k];
          assert ids[j] == w[k];
        }
      }
    }
  }

  /** Inserting `id` at its slot keeps the list distinct and ordered by enqueue time. */
  lemma InsertAtSlot(rows: map<int, Row>, rest: seq<int>, id: int, p: nat)
    requires InRows(rows, rest) && Distinct(rest) && ByEnqueueTime(rows, rest)
    requires id in rows && id !in rest && p <= |rest|
    requires forall k :: 0 <= k < p ==> rows[rest[k]].enqueuedAt <= rows[id].enqueuedAt
    requires forall k :: p <= k < |rest| ==> rows[rest[k]].enqueuedAt > rows[id].enqueuedAt
    ensures var r := rest[..p] + [id] + rest[p..];
      InRows(rows, r) && Distinct(r) && ByEnqueueTime(rows, r)
  {
    var r := rest[..p] + [id] + rest[p..];
    assert forall k :: 0 <= k < p ==> r[k] == rest[k];
    assert r[p] == id;
    assert forall k :: p < k < |r| ==> r[k] == rest[k - 1];
  }

  /** The table invariant: ids match, `order` lists every row once by enqueue time, keys are unique. */
  ghost predicate Invariant(rows: map<int, Row>, order: seq<int>, nextId: int)
  {
    && nextId >= 1
    && (forall id :: id in rows ==> rows[id].id == id && 1 <= id < nextId)
    && InRows(rows, order)
    && (forall id :: id in rows ==> id in order)
    && Distinct(order)
    && ByEnqueueTime(rows, order)
    && (forall a, b :: a in rows && b in rows && a != b ==> !SameKey(rows[a], rows[b].filePath, rows[b].contentHash))
  }

  /** Rows that differ only in status, retries, error and start/finish times keep the invariant. */
  lemma SameSkeleton(rows: map<int, Row>, rows': map<int, Row>, order: seq<int>, nextId: int)
    requires Invariant(rows, order, nextId)
    requires rows'.Keys == rows.Keys
    requires forall id :: id in rows ==>
      (rows'[id].id == rows[id].id && rows'[id].enqueuedAt == rows[id].enqueuedAt
       && rows'[id].filePath == rows[id].filePath && rows'[id].contentHash == rows[id].contentHash)
    ensures Invariant(rows', order, nextId)
  {
  }

  lemma {:induction false} DistinctSetSize(ids: seq<int>)
    requires Distinct(ids)
    ensures |set k | 0 <= k < |ids| :: ids[k]| == |ids|
  {
    if |ids| > 0 {
      var init := ids[..|ids| - 1];
      DistinctSetSize(init);
      var s0 := set k | 0 <= k < |init| :: init[k];
      var s := set k | 0 <= k < |ids| :: ids[k];
      assert s == s0 + {ids[|ids| - 1]};
      assert ids[|ids| - 1] !in s0;
    }
  }

  lemma DistinctSize(ids: seq<int>, m: map<int, Row>)
    requires Distinct(ids) && InRows(m, ids) && forall x :: x in m ==> x in ids
    ensures |m| == |ids|
  {
    var s := set k | 0 <= k < |ids| :: ids[k];
    forall x | x in m ensures x in s {
      var k :| 0 <= k < |ids| && ids[k] == x;
    }
    assert m.Keys == s;
    DistinctSetSize(ids);
  }

  /** The ids of `order` that survive a purge. */
  function Survivors(rows: map<int, Row>, order: seq<int>, cc: int, fc: int): (r: seq<int>)
    requires InRows(rows, order)
    ensures InRows(rows, r) && forall x :: x in r <==> x in order && !Purgeable(rows[x], cc, fc)
  {
    if |order| == 0 then []
    else
      var init := Survivors(rows, order[..|order| - 1], cc, fc);
      var last := order[|order| - 1];
      assert order == order[..|order| - 1] + [last];
      if Purgeable(rows[last], cc, fc) then init else init + [last]
  }

  lemma {:induction false} SurvivorsKeep(rows: map<int, Row>, order: seq<int>, cc: int, fc: int)
    requires InRows(rows, order) && Distinct(order) && ByEnqueueTime(rows, order)
    ensures Distinct(Survivors(rows, order, cc, fc)) && ByEnqueueTime(rows, Survivors(rows, order, cc, fc))
  {
    hide Purgeable;
    if |order| > 0 {
      var init := order[..|order| - 1];
      var last := order[|order| - 1];
      assert forall k :: 0 <= k < |init| ==> init[k] == order[k];
      SurvivorsKeep(rows, init, cc, fc);
      var w := Survivors(rows, init, cc, fc);
      assert Survivors(rows, order, cc, fc) == if Purgeable(rows[last], cc, fc) then w else w + [last];
      if !Purgeable(rows[last], cc, fc) {
        forall k | 0 <= k < |w| ensures w[k] != last && rows[w[k]].enqueuedAt <= rows[last].enqueuedAt {
          assert w[k] in init;
          var j :| 0 <= j < |init| && init[j] == w[k];
          assert order[j] == w[k];
        }
        AppendLater(rows, w, last);
      }
    }
  }

  /** An id not yet listed and enqueued no earlier than the listed ones can follow them. */
  lemma AppendLater(rows: map<int, Row>, w: seq<int>, last: int)
    requires InRows(rows, w) && last in rows && Distinct(w) && ByEnqueueTime(rows, w)
    requires forall k :: 0 <= k < |w| ==> w[k] != last && rows[w[k]].enqueuedAt <= rows[last].enqueuedAt
    ensures InRows(rows, w + [last]) && Distinct(w + [last]) && ByEnqueueTime(rows, w + [last])
  {
    var v := w + [last];
    assert forall k :: 0 <= k < |w| ==> v[k] == w[k];
  }

  /** The upserted row's key was unique or belonged to the same id, so keys stay unique. */
  lemma UpsertKeepsKeys(rows: map<int, Row>, id: int, row: Row)
    requires forall a, b :: a in rows && b in rows && a != b ==> !SameKey(rows[a], rows[b].filePath, rows[b].contentHash)
    requires forall x :: x in rows && x != id ==> !SameKey(rows[x], row.filePath, row.contentHash)
    ensures var rows' := rows[id := row];
      forall a, b :: a in rows' && b in rows' && a != b ==> !SameKey(rows'[a], rows'[b].filePath, rows'[b].contentHash)
  {
  }

  /** Every row of `rows'` is listed once the new id is inserted into the remaining ids. */
  lemma InsertCovers(rows': map<int, Row>, rest: seq<int>, id: int, p: nat)
    requires p <= |rest|
    requires forall x :: x in rows' && x != id ==> x in rest
    ensures forall x :: x in rows' ==> x in rest[..p] + [id] + rest[p..]
  {
    var order' := rest[..p] + [id] + rest[p..];
    forall x | x in rows' ensures x in order' {
      if x != id {
        var k :| 0 <= k < |rest| && rest[k] == x;
        if k < p { assert order'[k] == x; } else { assert order'[k + 1] == x; }
      } else {
        assert order'[p] == id;
      }
    }
  }

  lemma UpsertKeepsInvariant(rows: map<int, Row>, order: seq<int>, nextId: int, id: int, next: int,
                             filePath: String, contentHash: String, resultJson: String, now: int, p: nat)
    requires Invariant(rows, order, nextId)
    requires (id in rows && SameKey(rows[id], filePath, contentHash) && next == nextId)
          || (id == nextId && next == nextId + 1 && forall x :: x in rows ==> !SameKey(rows[x], filePath, contentHash))
    requires var rows' := rows[id := Fresh(id, filePath, contentHash, resultJson, now)];
      var rest := Without(order, id);
      && Distinct(rest) && InRows(rows', rest) && ByEnqueueTime(rows', rest)
      && p == SlotFor(rows', rest, now)
    ensures Invariant(rows[id := Fresh(id, filePath, contentHash, resultJson, now)],
                      Without(order, id)[..p] + [id] + Without(order, id)[p..], next)
  {
    var row := Fresh(id, filePath, contentHash, resultJson, now);
    var rows' := rows[id := row];
    var rest := Without(order, id);
    var order' := rest[..p] + [id] + rest[p..];
    InsertAtSlot(rows', rest, id, p);
    assert forall x :: x in rows' && x != id ==> x in rest by {
      forall x | x in rows' && x != id ensures x in rest {
        assert x in rows && x in order;
      }
    }
    InsertCovers(rows', rest, id, p);
    assert forall x :: x in rows && x != id ==> !SameKey(rows[x], filePath, contentHash);
    UpsertKeepsKeys(rows, id, row);
    assert 1 <= id < next by {
      if id in rows { assert rows[id].id == id; }
    }
    forall x | x in rows' ensures rows'[x].id == x && 1 <= x < next {
      if x != id { assert x in rows && rows'[x] == rows[x]; }
    }
    assert InRows(rows', order') && Distinct(order') && ByEnqueueTime(rows', order');
  }

  lemma PurgeKeepsInvariant(rows: map<int, Row>, order: seq<int>, nextId: int, cc: int, fc: int)
    requires Invariant(rows, order, nextId)
    ensures var kept := map id | id in rows && !Purgeable(rows[id], cc, fc) :: rows[id];
      var keep := Survivors(rows, order, cc, fc);
      Invariant(kept, keep, nextId) && |order| - |keep| == |rows| - |kept|
  {
    var kept := map id | id in rows && !Purgeable(rows[id], cc, fc) :: rows[id];
    var keep := Survivors(rows, order, cc, fc);
    SurvivorsKeep(rows, order, cc, fc);
    DistinctSize(order, rows);
    DistinctSize(keep, kept);
  }

  class Queue {
    var rows: map<int, Row>
    /** Row ids by ascending `enqueued_at`. */
    var order: seq<int>
    /** The next AUTOINCREMENT id. */
    var nextId: int

    ghost predicate Valid()
      reads this
    {
      Invariant(rows, order, nextId)
    }

    constructor ()
      ensures Valid() && rows == map[] && order == []
    {
      rows := map[];
      order := [];
      nextId := 1;
    }

    /** The id of the row for (filePath, contentHash), if there is one. */
    method FindKey(filePath: String, contentHash: String) returns (r: Option<int>)
      requires Valid()
      ensures r.Some? ==> r.value in rows && SameKey(rows[r.value], filePath, contentHash)
      ensures r.None? ==> forall id :: id in rows ==> !SameKey(rows[id], filePath, contentHash)
    {
      var i := 0;
      while i < |order|
        invariant 0 <= i <= |order|
        invariant forall k :: 0 <= k < i ==> !SameKey(rows[order[k]], filePath, contentHash)
      {
        if SameKey(rows[order[i]], filePath, contentHash) {
          return Some(order[i]);
        }
        i := i + 1;
      }
      return None;
    }

    /**
     * Upsert on (file_path, content_hash): an existing row keeps its id and is
     * reset to a fresh pending row; otherwise a row with a new id is added.
     */
    method Enqueue(filePath: String, contentHash: String, resultJson: String, now: int)
      requires Valid()
      modifies this
      ensures Valid()
      ensures forall id :: id in old(rows) && SameKey(old(rows)[id], filePath, contentHash) ==>
        rows == old(rows)[id := Fresh(id, filePath, contentHash, resultJson, now)] && nextId == old(nextId)
      ensures (forall id :: id in old(rows) ==> !SameKey(old(rows)[id], filePath, contentHash)) ==>
        rows == old(rows)[old(nextId) := Fresh(old(nextId), filePath, contentHash, resultJson, now)]
        && old(nextId) !in old(rows) && nextId == old(nextId) + 1
    {
      var found := FindKey(filePath, contentHash);
      var id: int;
      var next := nextId;
      if found.Some? {
        id := found.value;
      } else {
        id := nextId;
        next := nextId + 1;
      }
      var rows' := rows[id := Fresh(id, filePath, contentHash, resultJson, now)];
      var rest := Without(order, id);
      WithoutKeeps(order, id, rows, rows');
      var p := SlotFor(rows', rest, now);
      UpsertKeepsInvariant(rows, order, nextId, id, next, filePath, contentHash, resultJson, now, p);
      rows := rows';
      order := rest[..p] + [id] + rest[p..];
      nextId := next;
    }

    /**
     * Takes up to n pending rows, oldest first, and marks them inflight;
     * n <= 0 takes nothing.
     */
    method DequeueBatch(n: int, now: int) returns (items: seq<Row>)
      requires Valid()
      modifies this
      ensures Valid() && order == old(order) && nextId == old(nextId)
      ensures n <= 0 ==> items == [] && rows == old(rows)
      ensures n > 0 ==>
        var sel := Limit(IdsWith(old(rows), old(order), Pending), n);
        && rows == MarkInflight(old(rows), sel, now)
        && |items| == |sel|
        && forall k :: 0 <= k < |sel| ==> items[k] == Dequeued(old(rows)[sel[k]], now)
    {
      if n <= 0 {
        return [];
      }
      var sel;
      sel, items := SelectPending(rows, order, n, now);
      SameSkeleton(rows, MarkInflight(rows, sel, now), order, nextId);
      rows := MarkInflight(rows, sel, now);
    }

    /** Marks a row completed; an unknown id is an error. */
    method Complete(id: int, now: int) returns (err: Option<String>)
      requires Valid()
      modifies this
      ensures Valid() && order == old(order) && nextId == old(nextId)
      ensures id !in old(rows) ==> err == Some("item " + IntString(id) + " not found") && rows == old(rows)
      ensures id in old(rows) ==>
        err == None && rows == old(rows)[id := old(rows)[id].(status := Completed, completedAt := Some(now))]
    {
      if id !in rows {
        return Some("item " + IntString(id) + " not found");
      }
      var rows' := rows[id := rows[id].(status := Completed, completedAt := Some(now))];
      SameSkeleton(rows, rows', order, nextId);
      rows := rows';
      return None;
    }

    /**
     * Records a failed attempt: the retry count goes up by one and the row is
     * failed once it reaches maxRetries, pending again before that.
     */
    method Fail(id: int, maxRetries: int, errMsg: String, now: int) returns (err: Option<String>)
      requires Valid()
      modifies this
      ensures Valid() && order == old(order) && nextId == old(nextId)
      ensures id !in old(rows) ==> err == Some("item " + IntString(id) + " not found") && rows == old(rows)
      ensures id in old(rows) ==> err == None && rows == old(rows)[id := AfterFailure(old(rows)[id], maxRetries, errMsg, now)]
    {
      if id !in rows {
        return Some("item " + IntString(id) + " not found");
      }
      var rows' := rows[id := AfterFailure(rows[id], maxRetries, errMsg, now)];
      SameSkeleton(rows, rows', order, nextId);
      rows := rows';
      return None;
    }

    /** Row counts by status and the enqueue time of the oldest pending row. */
    function Stats(): (st: QueueStats)
      requires Valid()
      reads this
      ensures st.pending + st.inflight + st.completed + st.failed == |rows|
      ensures st.oldestPending.None? <==> st.pending == 0
      ensures st.oldestPending.Some? ==>
        (exists id :: id in rows && rows[id].status == Pending && rows[id].enqueuedAt == st.oldestPending.value)
        && forall id :: id in rows && rows[id].status == Pending ==> st.oldestPending.value <= rows[id].enqueuedAt
    {
      var pending := IdsWith(rows, order, Pending);
      StatsFacts(rows, order, nextId);
      QueueStats(|pending|, |IdsWith(rows, order, Inflight)|, |IdsWith(rows, order, Completed)|,
                 |IdsWith(rows, order, Failed)|,
                 if |pending| == 0 then None else Some(rows[pending[0]].enqueuedAt))
    }

    /**
     * Deletes completed rows finished before now - completedOlderThan and
     * failed rows finished before now - failedOlderThan; returns how many.
     */
    method Purge(completedOlderThan: int, failedOlderThan: int, now: int) returns (count: int)
      requires Valid()
      modifies this
      ensures Valid() && nextId == old(nextId)
      ensures rows == map id | id in old(rows) && !Purgeable(old(rows)[id], now - completedOlderThan, now - failedOlderThan) :: old(rows)[id]
      ensures count == |old(rows)| - |rows|
      ensures forall id :: id in old(rows) && (old(rows)[id].status == Pending || old(rows)[id].status == Inflight) ==>
        id in rows && rows[id] == old(rows)[id]
    {
      var cc := now - completedOlderThan;
      var fc := now - failedOlderThan;
      PurgeKeepsInvariant(rows, order, nextId, cc, fc);
      var kept := map id | id in rows && !Purgeable(rows[id], cc, fc) :: rows[id];
      var keep := Survivors(rows, order, cc, fc);
      count := |order| - |keep|;
      rows := kept;
      order := keep;
    }
  }

  /** The scan over the pending rows in enqueue order, stopping after `n`. */
  method SelectPending(rows: map<int, Row>, order: seq<int>, n: int, now: int) returns (sel: seq<int>, items: seq<Row>)
    requires InRows(rows, order) && n > 0
    ensures sel == Limit(IdsWith(rows, order, Pending), n)
    ensures |items| == |sel| && forall k :: 0 <= k < |sel| ==> items[k] == Dequeued(rows[sel[k]], now)
  {
    sel := [];
    items := [];
    var i := 0;
    while i < |order|
      invariant 0 <= i <= |order|
      invariant sel == Limit(IdsWith(rows, order[..i], Pending), n) && InRows(rows, sel)
      invariant |items| == |sel| && forall k :: 0 <= k < |sel| ==> items[k] == Dequeued(rows[sel[k]], now)
    {
      var id := order[i];
      IdsWithSnoc(rows, order, i, Pending);
      if rows[id].status == Pending && |sel| < n {
        sel := sel + [id];
        items := items + [Dequeued(rows[id], now)];
      }
      i := i + 1;
    }
    assert order[..i] == order;
  }

  /** What `Stats` reads off the table: the four counts cover the rows, and the first pending id is the oldest. */
  lemma StatsFacts(rows: map<int, Row>, order: seq<int>, nextId: int)
    requires Invariant(rows, order, nextId)
    ensures |IdsWith(rows, order, Pending)| + |IdsWith(rows, order, Inflight)|
      + |IdsWith(rows, order, Completed)| + |IdsWith(rows, order, Failed)| == |rows|
    ensures var pending := IdsWith(rows, order, Pending);
      ByEnqueueTime(rows, pending) && forall id :: id in rows && rows[id].status == Pending ==> id in pending
  {
    CountsCover(rows, order);
    DistinctSize(order, rows);
    IdsWithSorted(rows, order, Pending);
  }

  lemma {:induction false} IdsWithSnoc(rows: map<int, Row>, order: seq<int>, i: int, s: Status)
    requires InRows(rows, order) && 0 <= i < |order|
    ensures IdsWith(rows, order[..i + 1], s) ==
      IdsWith(rows, order[..i], s) + (if rows[order[i]].status == s then [order[i]] else [])
  {
    assert order[..i + 1][..i] == order[..i];
  }

  /** Every row has exactly one of the four statuses. */
  lemma {:induction false} CountsCover(rows: map<int, Row>, order: seq<int>)
    requires InRows(rows, order)
    ensures |IdsWith(rows, order, Pending)| + |IdsWith(rows, order, Inflight)|
      + |IdsWith(rows, order, Completed)| + |IdsWith(rows, order, Failed)| == |order|
  {
    if |order| > 0 {
      CountsCover(rows, order[..|order| - 1]);
    }
  }

  /**
   * DequeueBatch takes the oldest pending rows: what it selects is ordered by
   * enqueue time, it takes min(n, #pending) rows, and every pending row it
   * leaves was enqueued no earlier than any row it took.
   */
  lemma DequeueTakesOldest(rows: map<int, Row>, order: seq<int>, n: int)
    requires n > 0 && InRows(rows, order) && ByEnqueueTime(rows, order)
    ensures var pending := IdsWith(rows, order, Pending);
      var sel := Limit(pending, n);
      && ByEnqueueTime(rows, sel)
      && |sel| == (if n < |pending| then n else |pending|)
      && forall k, j :: 0 <= k < |sel| <= j < |pending| ==> rows[sel[k]].enqueuedAt <= rows[pending[j]].enqueuedAt
  {
    IdsWithSorted(rows, order, Pending);
  }
}
