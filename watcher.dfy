/**
 * The filesystem watcher: the editor-noise and watch-limit tests, and the
 * watcher object whose watched roots and fsnotify watch list change under
 * Watch, Unwatch, Start and Stop. The filesystem, `filepath.Abs`, the walk and
 * fsnotify itself are parameters.
 */
module Watcher {
  import opened Text
  import opened Wrappers
  import Paths

  // ----- editor noise -----

  /**
   * The base names that are transient editor artifacts, stated character by
   * character: a Vim swap name ending ".swp", ".swo" or ".swn", the Vim probe
   * "4913", an Emacs auto-save name that begins and ends with '#' (a lone "#"
   * does both), and a backup name ending with '~'.
   */
  predicate NoiseName(name: String)
  {
    var n := |name|;
    (n >= 4 && name[n - 4] == '.' && name[n - 3] == 's' && name[n - 2] == 'w' && name[n - 1] in "pon")
    || name == "4913"
    || (n >= 1 && name[0] == '#' && name[n - 1] == '#')
    || (n >= 1 && name[n - 1] == '~')
  }

  /** The three swap suffixes, as the character test states them. */
  lemma SwapSuffix(name: String)
    ensures (HasSuffix(name, ".swp") || HasSuffix(name, ".swo") || HasSuffix(name, ".swn"))
        <==> (|name| >= 4 && name[|name| - 4] == '.' && name[|name| - 3] == 's' && name[|name| - 2] == 'w'
              && name[|name| - 1] in "pon")
  {
    if |name| >= 4 {
      var t := name[|name| - 4..];
      assert t == [name[|name| - 4], name[|name| - 3], name[|name| - 2], name[|name| - 1]];
    }
  }

  /** The auto-save and backup tests, as the character test states them. */
  lemma HashTildeAffixes(name: String)
    ensures (HasPrefix(name, "#") && HasSuffix(name, "#")) <==> (|name| >= 1 && name[0] == '#' && name[|name| - 1] == '#')
    ensures HasSuffix(name, "~") <==> (|name| >= 1 && name[|name| - 1] == '~')
  {
    if |name| >= 1 {
      assert name[..1] == [name[0]];
      assert name[|name| - 1..] == [name[|name| - 1]];
    }
  }

  /** `isEditorNoise`: the test applies to the base name only. */
  function IsEditorNoise(path: String): (r: bool)
    ensures r <==> NoiseName(Paths.Base(path))
  {
    var name := Paths.Base(path);
    SwapSuffix(name);
    HashTildeAffixes(name);
    if HasSuffix(name, ".swp") || HasSuffix(name, ".swo") || HasSuffix(name, ".swn") then true
    else if name == "4913" then true
    else if HasPrefix(name, "#") && HasSuffix(name, "#") then true
    else HasSuffix(name, "~")
  }

  /** The base name of a directory joined with a separator-free name is that name. */
  lemma {:induction false} BaseOfJoin(dir: String, name: String)
    requires name != [] && Paths.NoSep(name)
    ensures Paths.Base(dir + [Paths.Sep] + name) == name
  {
    var p := dir + [Paths.Sep] + name;
    assert Paths.TrimTrailingSeps(p) == p;
    LastElementOfJoin(dir, name);
  }

  lemma {:induction false} LastElementOfJoin(dir: String, name: String)
    requires Paths.NoSep(name)
    ensures Paths.LastElement(dir + [Paths.Sep] + name) == name
    decreases |name|
  {
    var p := dir + [Paths.Sep] + name;
    if name == [] {
      assert p[|p| - 1] == Paths.Sep;
    } else {
      var init := name[..|name| - 1];
      assert p[..|p| - 1] == dir + [Paths.Sep] + init;
      LastElementOfJoin(dir, init);
      assert init + [name[|name| - 1]] == name;
    }
  }

  /** A file in any directory is noise exactly when its own name is. */
  lemma NoiseInDirectory(dir: String, name: String)
    requires name != [] && Paths.NoSep(name)
    ensures IsEditorNoise(dir + "/" + name) <==> NoiseName(name)
  {
    BaseOfJoin(dir, name);
  }

  /** Swap, probe, auto-save and backup names are noise, and so is a lone "#". */
  lemma NoiseExamples()
    ensures NoiseName("file.swp") && NoiseName("file.swn") && NoiseName("4913")
    ensures NoiseName("#autosave#") && NoiseName("backup.txt~") && NoiseName("#")
  {
  }

  /** Hidden, stray-'~', half auto-save and other backup-like names are not noise. */
  lemma CleanExamples()
    ensures !NoiseName(".hidden") && !NoiseName("~temp") && !NoiseName("#partial")
    ensures !NoiseName("file.bak") && !NoiseName("14913")
  {
  }

  // ----- watch limits -----

  /** The messages of the errors that mean the kernel's watch limit is used up. */
  const LimitPhrases: seq<String> :=
    ["too many open files", "no space left on device", "user limit on total number of inotify watches"]

  /** The three phrase tests are the tests against the listed phrases. */
  lemma PhrasesListed(msg: String)
    ensures (Contains(msg, "too many open files")
             || Contains(msg, "no space left on device")
             || Contains(msg, "user limit on total number of inotify watches"))
        <==> exists k :: 0 <= k < |LimitPhrases| && Contains(msg, LimitPhrases[k])
  {
    assert LimitPhrases[0] == "too many open files";
    assert LimitPhrases[1] == "no space left on device";
    assert LimitPhrases[2] == "user limit on total number of inotify watches";
  }

  /** `isWatchLimitError`: a failure whose message contains one of the limit phrases. */
  function IsWatchLimitError(err: Option<String>): bool
  {
    match err
    case None => false
    case Some(msg) =>
      Contains(msg, "too many open files")
      || Contains(msg, "no space left on device")
      || Contains(msg, "user limit on total number of inotify watches")
  }

  /** No error is not a limit error; a message is one exactly when it contains one of the listed phrases. */
  lemma LimitErrorPhrases(err: Option<String>)
    ensures err == None ==> !IsWatchLimitError(err)
    ensures err.Some? ==> (IsWatchLimitError(err) <==> exists k :: 0 <= k < |LimitPhrases| && Contains(err.value, LimitPhrases[k]))
  {
    if err.Some? {
      PhrasesListed(err.value);
    }
  }

  /** A limit phrase anywhere inside a message makes it a limit error. */
  lemma LimitEmbedded(before: String, k: nat, after: String)
    requires k < |LimitPhrases|
    ensures IsWatchLimitError(Some(before + LimitPhrases[k] + after))
  {
    var msg := before + LimitPhrases[k] + after;
    assert msg[|before|..|before| + |LimitPhrases[k]|] == LimitPhrases[k];
    assert OccursAt(msg, LimitPhrases[k], |before|);
    LimitErrorPhrases(Some(msg));
  }

  /** A message shorter than every limit phrase is never a limit error. */
  lemma ShortIsNoLimit(msg: String)
    requires |msg| < 19
    ensures !IsWatchLimitError(Some(msg))
  {
  }

  /** Permission and lookup failures are not limit errors. */
  lemma LimitExamples()
    ensures !IsWatchLimitError(Some("permission denied")) && !IsWatchLimitError(Some("file not found"))
  {
    ShortIsNoLimit("permission denied");
    ShortIsNoLimit("file not found");
  }

  // ----- the directory walk -----

  /**
   * The directories, among those the walk visits, that the walk callback
   * hands to `addWatch`: the root always, any other one when the path
   * filter accepts it.
   */
  function Accepted(visited: seq<String>, root: String, process: String -> bool): (r: seq<String>)
    ensures |r| <= |visited|
  {
    if visited == [] then []
    else
      var rest := Accepted(visited[..|visited| - 1], root, process);
      var p := visited[|visited| - 1];
      if p != root && !process(p) then rest else rest + [p]
  }

  /** A directory gets a watch attempt iff the walk visits it and it is the root or accepted by the filter. */
  lemma {:induction false} AcceptedSound(visited: seq<String>, root: String, process: String -> bool)
    ensures forall p :: p in Accepted(visited, root, process) <==> p in visited && (p == root || process(p))
  {
    if visited != [] {
      var init := visited[..|visited| - 1];
      AcceptedSound(init, root, process);
      assert visited == init + [visited[|visited| - 1]];
    }
  }

  /** An `add` outcome that is a failure but not a watch-limit failure. */
  predicate HardFailure(outcome: Option<String>)
  {
    outcome.Some? && !IsWatchLimitError(outcome)
  }

  /** An `add` outcome that is a watch-limit failure. */
  predicate LimitFailure(outcome: Option<String>)
  {
    outcome.Some? && IsWatchLimitError(outcome)
  }

  /** The number of directories whose watch fails for a reason other than the limit: each one counts an error. */
  function Failures(dirs: seq<String>, add: String -> Option<String>): (n: nat)
    ensures n <= |dirs|
  {
    if dirs == [] then 0
    else Failures(dirs[..|dirs| - 1], add) + (if HardFailure(add(dirs[|dirs| - 1])) then 1 else 0)
  }

  /** No failure counts an error exactly when no directory's watch fails for a reason other than the limit. */
  lemma {:induction false} FailuresZero(dirs: seq<String>, add: String -> Option<String>)
    ensures Failures(dirs, add) == 0 <==> forall i :: 0 <= i < |dirs| ==> !HardFailure(add(dirs[i]))
  {
    if dirs != [] {
      var init := dirs[..|dirs| - 1];
      FailuresZero(init, add);
      assert forall i :: 0 <= i < |init| ==> init[i] == dirs[i];
    }
  }

  /** Some directory's watch hits the limit: the watcher enters degraded mode. */
  predicate HitsLimit(dirs: seq<String>, add: String -> Option<String>)
  {
    exists i :: 0 <= i < |dirs| && LimitFailure(add(dirs[i]))
  }

  /** The directories whose watch fsnotify accepts. */
  function Added(dirs: seq<String>, add: String -> Option<String>): set<String>
  {
    if dirs == [] then {}
    else Added(dirs[..|dirs| - 1], add) + (if add(dirs[|dirs| - 1]) == None then {dirs[|dirs| - 1]} else {})
  }

  /** fsnotify gains a watch on exactly the accepted directories whose `add` succeeds. */
  lemma {:induction false} AddedSound(dirs: seq<String>, add: String -> Option<String>)
    ensures forall p :: p in Added(dirs, add) <==> p in dirs && add(p) == None
  {
    if dirs != [] {
      var init := dirs[..|dirs| - 1];
      AddedSound(init, add);
      assert dirs == init + [dirs[|dirs| - 1]];
    }
  }

  /** `WatcherStats` */
  datatype Stats = Stats(
    watchedPaths: int, eventsReceived: int, eventsPublished: int, eventsCoalesced: int,
    errors: int, isRunning: bool, degradedMode: bool)

  const NoStats := Stats(0, 0, 0, 0, 0, false, false)

  /** The statistics after one watch attempt with outcome `outcome`. */
  function Attempted(st: Stats, outcome: Option<String>): Stats
  {
    if LimitFailure(outcome) then st.(degradedMode := true)
    else if HardFailure(outcome) then st.(errors := st.errors + 1)
    else st
  }

  /**
   * The statistics after the watch attempts on `dirs`: every failure other
   * than the limit adds an error, and a limit failure sets degraded mode.
   */
  function AfterWalk(st: Stats, dirs: seq<String>, add: String -> Option<String>): Stats
  {
    if dirs == [] then st
    else Attempted(AfterWalk(st, dirs[..|dirs| - 1], add), add(dirs[|dirs| - 1]))
  }

  /** The walk adds one error per failure other than the limit, and degrades iff some attempt hits the limit. */
  lemma {:induction false} AfterWalkCounts(st: Stats, dirs: seq<String>, add: String -> Option<String>)
    ensures AfterWalk(st, dirs, add)
         == st.(errors := st.errors + Failures(dirs, add), degradedMode := st.degradedMode || HitsLimit(dirs, add))
  {
    if dirs != [] {
      var init := dirs[..|dirs| - 1];
      var p := dirs[|dirs| - 1];
      AfterWalkCounts(st, init, add);
      WalkSnoc(init, p, add);
      assert dirs == init + [p];
    }
  }

  /** One more accepted directory: its outcome joins the failure count and the limit test. */
  lemma WalkSnoc(dirs: seq<String>, p: String, add: String -> Option<String>)
    ensures Failures(dirs + [p], add) == Failures(dirs, add) + (if HardFailure(add(p)) then 1 else 0)
    ensures HitsLimit(dirs + [p], add) <==> HitsLimit(dirs, add) || LimitFailure(add(p))
  {
    assert (dirs + [p])[..|dirs|] == dirs;
    if HitsLimit(dirs, add) {
      var j :| 0 <= j < |dirs| && LimitFailure(add(dirs[j]));
      assert (dirs + [p])[j] == dirs[j];
    }
    assert (dirs + [p])[|dirs|] == p;
  }

  /** A path lies under a root that lies under another root: it lies under that one too. */
  lemma UnderTransitive(path: String, a: String, b: String)
    requires Paths.Under(path, a) && Paths.Under(a, b)
    ensures Paths.Under(path, b)
  {
    if path != a && a != b {
      assert path[..|b| + 1] == path[..|a| + 1][..|b| + 1] == a[..|b| + 1];
    }
  }

  /** `path` lies under one of `roots`. */
  ghost predicate Covered(roots: set<String>, path: String)
  {
    exists root :: root in roots && Paths.Under(path, root)
  }

  /** A path under a nested root stays covered when that root is forgotten and a root above it is still watched. */
  lemma CoveredByAncestor(roots: set<String>, path: String, a: String, b: String)
    requires a != b && b in roots && Paths.Under(path, a) && Paths.Under(a, b)
    ensures Covered(roots - {a}, path)
  {
    UnderTransitive(path, a, b);
    assert b in roots - {a};
  }

  /**
   * The watcher (`watcher`): its watched roots (`watchedPaths`, every value
   * true), fsnotify's watch list, its statistics, whether it runs, and
   * whether `Stop`'s once-guard has fired.
   */
  class Watcher {
    var watchedPaths: map<String, bool>
    var watches: set<String>
    var stats: Stats
    var running: bool
    var stopped: bool

    ghost predicate Valid()
      reads this
    {
      stats.isRunning == running && forall p :: p in watchedPaths ==> watchedPaths[p]
    }

    /** `New`: nothing watched, idle. */
    constructor()
      ensures Valid()
      ensures watchedPaths == map[] && watches == {} && stats == NoStats && !running && !stopped
    {
      watchedPaths := map[];
      watches := {};
      stats := NoStats;
      running := false;
      stopped := false;
    }

    /**
     * `addWatch`: `add` is fsnotify's `Add`. A limit failure switches on
     * degraded mode and is not reported; any other failure is.
     */
    method AddWatch(p: String, add: String -> Option<String>) returns (err: Option<String>)
      requires Valid()
      modifies this
      ensures Valid()
      ensures watches == if add(p) == None then old(watches) + {p} else old(watches)
      ensures stats == if LimitFailure(add(p)) then old(stats).(degradedMode := true) else old(stats)
      ensures err == if HardFailure(add(p)) then add(p) else None
      ensures watchedPaths == old(watchedPaths) && running == old(running) && stopped == old(stopped)
      ensures Attempted(old(stats), add(p)) == if err.Some? then stats.(errors := stats.errors + 1) else stats
    {
      var outcome := add(p);
      err := None;
      if outcome.Some? {
        if IsWatchLimitError(outcome) {
          stats := stats.(degradedMode := true);
        } else {
          err := outcome;
        }
      } else {
        watches := watches + {p};
      }
    }

    /**
     * `Watch`: resolve the path (`abs`), check it is a directory (`isDir`),
     * attempt a watch on every directory the walk visits (`visited`, the root
     * first) that is the root or passes the path filter (`process`), count
     * each failed attempt, and record the root. The walk calls back once per
     * directory; the callbacks' combined effect, an `AddWatch` and a count
     * per accepted directory, is the fold `Added`/`AfterWalk` over `Accepted`.
     */
    method Watch(path: String, abs: String -> Result<String>, isDir: String -> Result<bool>,
                 visited: seq<String>, process: String -> bool, add: String -> Option<String>)
      returns (err: Option<String>)
      requires Valid()
      modifies this
      ensures Valid()
      ensures abs(path).Err? ==>
        err == Some("failed to resolve path; " + abs(path).error) && unchanged(this)
      ensures abs(path).Ok? && isDir(abs(path).value).Err? ==>
        err == Some("failed to stat path; " + isDir(abs(path).value).error) && unchanged(this)
      ensures abs(path).Ok? && isDir(abs(path).value) == Ok(false) ==>
        err == Some("path is not a directory: " + abs(path).value) && unchanged(this)
      ensures abs(path).Ok? && isDir(abs(path).value) == Ok(true) ==>
        var root := abs(path).value;
        var dirs := Accepted(visited, root, process);
        && err == None
        && watchedPaths == old(watchedPaths)[root := true]
        && watches == old(watches) + Added(dirs, add)
        && stats == old(stats).(errors := old(stats).errors + Failures(dirs, add),
                                degradedMode := old(stats).degradedMode || HitsLimit(dirs, add))
        && running == old(running) && stopped == old(stopped)
    {
      if abs(path).Err? {
        return Some("failed to resolve path; " + abs(path).error);
      }
      var root := abs(path).value;
      var info := isDir(root);
      if info.Err? {
        return Some("failed to stat path; " + info.error);
      }
      if !info.value {
        return Some("path is not a directory: " + root);
      }
      var dirs := Accepted(visited, root, process);
      AfterWalkCounts(stats, dirs, add);
      watches := watches + Added(dirs, add);
      stats := AfterWalk(stats, dirs, add);
      watchedPaths := watchedPaths[root := true];
      err := None;
    }

    /** Remove every fsnotify watch on `root` or beneath it. */
    method RemoveWatchesUnder(root: String)
      requires Valid()
      modifies this
      ensures Valid()
      ensures watches == (set w | w in old(watches) && !Paths.Under(w, root))
      ensures watchedPaths == old(watchedPaths) && stats == old(stats)
      ensures running == old(running) && stopped == old(stopped)
    {
      var list := watches;
      while list != {}
        invariant list <= old(watches)
        invariant watches == (set w | w in old(watches) && (w in list || !Paths.Under(w, root)))
        invariant Valid()
        invariant watchedPaths == old(watchedPaths) && stats == old(stats)
        invariant running == old(running) && stopped == old(stopped)
        decreases |list|
      {
        var w :| w in list;
        if Paths.Under(w, root) {
          watches := watches - {w};
        }
        list := list - {w};
      }
    }

    /**
     * `Unwatch`: forget the root and remove every fsnotify watch on it or
     * beneath it, whichever root those watches were added for. A failed
     * removal is ignored.
     */
    method Unwatch(path: String, abs: String -> Result<String>) returns (err: Option<String>)
      requires Valid()
      modifies this
      ensures Valid()
      ensures abs(path).Err? ==> err == Some("failed to resolve path; " + abs(path).error) && unchanged(this)
      ensures abs(path).Ok? ==>
        var root := abs(path).value;
        && err == None
        && watchedPaths == old(watchedPaths) - {root}
        && watches == (set w | w in old(watches) && !Paths.Under(w, root))
        && stats == old(stats) && running == old(running) && stopped == old(stopped)
    {
      if abs(path).Err? {
        return Some("failed to resolve path; " + abs(path).error);
      }
      var root := abs(path).value;
      watchedPaths := watchedPaths - {root};
      RemoveWatchesUnder(root);
      err := None;
    }

    /** `WatchedPaths`: every watched root once, in no particular order. */
    method WatchedPaths() returns (paths: seq<String>)
      ensures forall p :: p in paths <==> p in watchedPaths
      ensures |paths| == |watchedPaths|
    {
      paths := [];
      var rest := watchedPaths.Keys;
      while rest != {}
        invariant rest <= watchedPaths.Keys
        invariant forall p :: p in paths <==> p in watchedPaths && p !in rest
        invariant |paths| + |rest| == |watchedPaths|
        decreases |rest|
      {
        var p :| p in rest;
        paths := paths + [p];
        rest := rest - {p};
      }
    }

    /** `isUnderWatchedPath`: the path is a watched root or lies beneath one. */
    method IsUnderWatchedPath(path: String) returns (r: bool)
      ensures r <==> Covered(watchedPaths.Keys, path)
    {
      var rest := watchedPaths.Keys;
      while rest != {}
        invariant rest <= watchedPaths.Keys
        invariant forall root :: root in watchedPaths && root !in rest ==> !Paths.Under(path, root)
        decreases |rest|
      {
        var root :| root in rest;
        if Paths.Under(path, root) {
          return true;
        }
        rest := rest - {root};
      }
      return false;
    }

    /** `Start`: a watcher that already runs refuses; otherwise it begins to run. */
    method Start() returns (err: Option<String>)
      requires Valid()
      modifies this
      ensures Valid()
      ensures old(running) ==> err == Some("watcher already running") && unchanged(this)
      ensures !old(running) ==>
        && err == None && running && stats == old(stats).(isRunning := true)
        && watchedPaths == old(watchedPaths) && watches == old(watches) && stopped == old(stopped)
    {
      if running {
        return Some("watcher already running");
      }
      running := true;
      stats := stats.(isRunning := true);
      err := None;
    }

    /**
     * `Stop`: guarded by a once-guard, so only the first call acts; that call
     * stops a running watcher and reports `closeErr`, the outcome of closing
     * fsnotify.
     */
    method Stop(closeErr: Option<String>) returns (err: Option<String>)
      requires Valid()
      modifies this
      ensures Valid()
      ensures old(stopped) ==> err == None && unchanged(this)
      ensures !old(stopped) && !old(running) ==>
        && err == None && stopped && !running && stats == old(stats)
        && watchedPaths == old(watchedPaths) && watches == old(watches)
      ensures !old(stopped) && old(running) ==>
        && err == closeErr && stopped && !running && stats == old(stats).(isRunning := false)
        && watchedPaths == old(watchedPaths) && watches == old(watches)
    {
      if stopped {
        return None;
      }
      stopped := true;
      if !running {
        return None;
      }
      running := false;
      stats := stats.(isRunning := false);
      err := closeErr;
    }
  }

  /** Starting twice: the second start is refused and leaves the watcher running. */
  method StartTwice(w: Watcher) returns (first: Option<String>, second: Option<String>)
    requires w.Valid() && !w.running
    modifies w
    ensures first == None && second == Some("watcher already running") && w.running
  {
    first := w.Start();
    second := w.Start();
  }
}
