/**
 * The analysis work queue: a bounded buffer of work items served by a pool
 * of workers, with a run state, tunable settings and a degradation mode
 * chosen from how full the buffer is.
 */
module AnalysisQueue {
  import opened Text
  import opened Wrappers
  import Ingest

  datatype QueueState = Idle | Running | Stopping | Stopped

  datatype Degradation = Full | NoEmbed | MetadataOnly

  /** What a completed analysis produced, as announced to subscribers. */
  datatype AnalysisType = AnalysisFull | AnalysisSemantic | AnalysisMetadata

  datatype EventType = New | Changed

  datatype WorkItem = WorkItem(filePath: String, fileSize: int, modTime: int, eventType: EventType, retries: nat)

  datatype Settings = Settings(workerCount: int, batchSize: int, maxRetries: int, capacity: int)

  /** The functional options accepted when the queue is built. */
  datatype QueueOption =
    | WithWorkerCount(n: int)
    | WithBatchSize(n: int)
    | WithMaxRetries(n: int)
    | WithQueueCapacity(n: int)

  const Defaults: Settings := Settings(4, 10, 3, 1000)

  predicate SettingsOk(s: Settings)
  {
    s.workerCount > 0 && s.batchSize > 0 && s.maxRetries >= 0 && s.capacity > 0
  }

  /**
   * One option: counts and sizes ignore values that are not positive, the
   * retry limit ignores negative values, and nothing else changes.
   */
  function Apply(s: Settings, opt: QueueOption): (r: Settings)
    ensures SettingsOk(s) ==> SettingsOk(r)
    ensures opt.WithMaxRetries? ==> r.maxRetries == (if opt.n >= 0 then opt.n else s.maxRetries)
    ensures !opt.WithMaxRetries? && opt.n <= 0 ==> r == s
  {
    match opt
    case WithWorkerCount(n) => if n > 0 then s.(workerCount := n) else s
    case WithBatchSize(n) => if n > 0 then s.(batchSize := n) else s
    case WithMaxRetries(n) => if n >= 0 then s.(maxRetries := n) else s
    case WithQueueCapacity(n) => if n > 0 then s.(capacity := n) else s
  }

  /** The options applied in order, as the constructor does. */
  function ApplyAll(s: Settings, opts: seq<QueueOption>): Settings
  {
    if |opts| == 0 then s else Apply(ApplyAll(s, opts[..|opts| - 1]), opts[|opts| - 1])
  }

  /** Whatever options are given, the built queue has usable settings. */
  lemma {:induction false} OptionsKeepSettingsOk(s: Settings, opts: seq<QueueOption>)
    requires SettingsOk(s)
    ensures SettingsOk(ApplyAll(s, opts))
  {
    if |opts| > 0 {
      OptionsKeepSettingsOk(s, opts[..|opts| - 1]);
    }
  }

  /** The last valid option for a setting wins; invalid ones leave the earlier value. */
  lemma OptionsExample()
    ensures ApplyAll(Defaults, [WithWorkerCount(8), WithWorkerCount(0), WithMaxRetries(0)])
      == Settings(8, 10, 0, 1000)
  {
    var opts := [WithWorkerCount(8), WithWorkerCount(0), WithMaxRetries(0)];
    assert opts[..2][..1] == [WithWorkerCount(8)] && opts[..2] == [WithWorkerCount(8), WithWorkerCount(0)];
    assert ApplyAll(Defaults, opts[..1]) == Settings(8, 10, 3, 1000);
  }

  /** `getDegradationMode`, on the fill ratio pending/capacity. */
  function DegradationFor(fill: real): Degradation
  {
    if fill >= 0.95 then MetadataOnly
    else if fill >= 0.80 then NoEmbed
    else Full
  }

  function Severity(d: Degradation): nat
  {
    match d
    case Full => 0
    case NoEmbed => 1
    case MetadataOnly => 2
  }

  /** A fuller queue never degrades less. */
  lemma DegradationMonotone(x: real, y: real)
    requires x <= y
    ensures Severity(DegradationFor(x)) <= Severity(DegradationFor(y))
  {
  }

  /** The thresholds in whole numbers: 95% and 80% of the capacity. */
  lemma DegradationThresholds(pending: nat, capacity: nat)
    requires capacity > 0
    ensures var d := DegradationFor(pending as real / capacity as real);
      (d == MetadataOnly <==> 100 * pending >= 95 * capacity)
      && (d == NoEmbed <==> 80 * capacity <= 100 * pending < 95 * capacity)
      && (d == Full <==> 100 * pending < 80 * capacity)
  {
    var f := pending as real / capacity as real;
    var c := capacity as real;
    var p := pending as real;
    AtLeastScaled(f, 0.95, c, p);
    AtLeastScaled(f, 0.80, c, p);
  }

  /** For a positive `c` and `p == f * c`, `f >= t` exactly when `p >= t * c`. */
  lemma AtLeastScaled(f: real, t: real, c: real, p: real)
    requires c > 0.0 && f == p / c
    ensures f >= t <==> p >= t * c
  {
    assert f * c == p;
    if f >= t {
      assert (f - t) * c >= 0.0;
      assert f * c - t * c >= 0.0;
    } else {
      assert (t - f) * c > 0.0;
      assert t * c - f * c > 0.0;
    }
  }

  /**
   * `publishAnalysisComplete`: files that were not chunked announce a
   * metadata analysis, chunked files without embeddings a semantic one.
   */
  function AnalysisTypeFor(mode: Ingest.Mode, embeddings: nat): (t: AnalysisType)
    ensures t == AnalysisMetadata <==> mode != Ingest.Chunk
    ensures t == AnalysisSemantic <==> mode == Ingest.Chunk && embeddings == 0
    ensures t == AnalysisFull <==> mode == Ingest.Chunk && embeddings > 0
  {
    match mode
    case MetadataOnly => AnalysisMetadata
    case Skip => AnalysisMetadata
    case Chunk => if embeddings == 0 then AnalysisSemantic else AnalysisFull
  }

  datatype QueueStats = QueueStats(state: QueueState, workerCount: int, pendingItems: nat, degradation: Degradation)

  /** Worker `i` of the pool has id `i`. */
  function WorkerIds(n: nat): (ids: seq<nat>)
    ensures |ids| == n && forall i :: 0 <= i < n ==> ids[i] == i
  {
    seq(n, i requires 0 <= i < n => i)
  }

  class Queue {
    var state: QueueState
    var settings: Settings
    /** Ids of the started workers. */
    var workers: seq<nat>
    /** The buffered work channel, oldest first. */
    var pending: seq<WorkItem>

    ghost predicate Valid()
      reads this
    {
      SettingsOk(settings)
      && |pending| <= settings.capacity
      && (state == Running ==> workers == WorkerIds(settings.workerCount))
    }

    /** `NewQueue`: defaults 4 workers, batches of 10, 3 retries, capacity 1000, then the options. */
    constructor (opts: seq<QueueOption>)
      ensures Valid()
      ensures state == Idle && settings == ApplyAll(Defaults, opts)
      ensures workers == [] && pending == []
    {
      OptionsKeepSettingsOk(Defaults, opts);
      state := Idle;
      settings := ApplyAll(Defaults, opts);
      workers := [];
      pending := [];
    }

    /** Starting a running queue is an error; otherwise a fresh buffer and a full pool. */
    method Start() returns (err: Option<String>)
      requires Valid()
      modifies this
      ensures Valid()
      ensures old(state) == Running ==> err == Some("queue already running") && unchanged(this)
      ensures old(state) != Running ==>
        err == None && state == Running && pending == [] && settings == old(settings)
        && workers == WorkerIds(settings.workerCount)
    {
      if state == Running {
        return Some("queue already running");
      }
      pending := [];
      state := Running;
      workers := [];
      var i := 0;
      var n := settings.workerCount;
      while i < n
        invariant 0 <= i <= n && n == settings.workerCount
        invariant workers == WorkerIds(i)
        invariant state == Running && pending == [] && settings == old(settings)
      {
        workers := workers + [i];
        i := i + 1;
      }
      err := None;
    }

    /** Stopping a queue that is not running does nothing; otherwise it ends stopped. */
    method Stop()
      requires Valid()
      modifies this
      ensures Valid()
      ensures old(state) != Running ==> unchanged(this)
      ensures old(state) == Running ==>
        state == Stopped && settings == old(settings) && pending == old(pending) && workers == old(workers)
    {
      if state != Running {
        return;
      }
      state := Stopping;
      state := Stopped;
    }

    /** A non-blocking send: refused when not running or when the buffer is full. */
    method Enqueue(item: WorkItem) returns (err: Option<String>)
      requires Valid()
      modifies this
      ensures Valid()
      ensures old(state) != Running ==> err == Some("queue not running") && unchanged(this)
      ensures old(state) == Running && |old(pending)| == settings.capacity ==>
        err == Some("queue full; capacity=" + IntString(settings.capacity)) && unchanged(this)
      ensures old(state) == Running && |old(pending)| < settings.capacity ==>
        err == None && pending == old(pending) + [item]
        && state == old(state) && settings == old(settings) && workers == old(workers)
    {
      if state != Running {
        return Some("queue not running");
      }
      if |pending| == settings.capacity {
        return Some("queue full; capacity=" + IntString(settings.capacity));
      }
      pending := pending + [item];
      err := None;
    }

    /** A worker's receive: the oldest buffered item, if any. */
    method Receive() returns (item: Option<WorkItem>)
      requires Valid()
      modifies this
      ensures Valid()
      ensures old(pending) == [] ==> item == None && unchanged(this)
      ensures old(pending) != [] ==>
        item == Some(old(pending)[0]) && pending == old(pending)[1..]
        && state == old(state) && settings == old(settings) && workers == old(workers)
    {
      if |pending| == 0 {
        return None;
      }
      item := Some(pending[0]);
      pending := pending[1..];
    }

    /** `Stats`: the state, the pool size, the buffer length and the degradation it implies. */
    function Stats(): (st: QueueStats)
      requires Valid()
      reads this
      ensures st.pendingItems == |pending| <= settings.capacity
      ensures st.degradation == MetadataOnly <==> 100 * |pending| >= 95 * settings.capacity
      ensures st.degradation == Full <==> 100 * |pending| < 80 * settings.capacity
    {
      DegradationThresholds(|pending|, settings.capacity);
      QueueStats(state, settings.workerCount, |pending|,
                 DegradationFor(|pending| as real / settings.capacity as real))
    }

    /**
     * Non-positive counts are ignored. A stopped queue only records the new
     * count; a running one starts or stops workers until the pool has `n`.
     */
    method SetWorkerCount(n: int)
      requires Valid()
      modifies this
      ensures Valid()
      ensures n <= 0 ==> unchanged(this)
      ensures n > 0 ==>
        settings == old(settings).(workerCount := n) && state == old(state) && pending == old(pending)
      ensures n > 0 && old(state) != Running ==> workers == old(workers)
      ensures n > 0 && old(state) == Running ==> workers == WorkerIds(n)
    {
      if n <= 0 {
        return;
      }
      if state != Running {
        settings := settings.(workerCount := n);
        return;
      }
      var current := |workers|;
      if n == current {
        return;
      }
      if n > current {
        var i := current;
        while i < n
          invariant current <= i <= n
          invariant workers == WorkerIds(i)
          invariant state == old(state) && pending == old(pending) && settings == old(settings)
        {
          workers := workers + [i];
          i := i + 1;
        }
      } else {
        workers := workers[..n];
      }
      settings := settings.(workerCount := n);
    }

    /** Non-positive batch sizes are ignored. */
    method SetBatchSize(n: int)
      requires Valid()
      modifies this
      ensures Valid()
      ensures n <= 0 ==> unchanged(this)
      ensures n > 0 ==>
        settings == old(settings).(batchSize := n)
        && state == old(state) && pending == old(pending) && workers == old(workers)
    {
      if n <= 0 {
        return;
      }
      settings := settings.(batchSize := n);
    }
  }
}
