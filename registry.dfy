/**
 * The registry of remembered paths and per-file analysis state. The two
 * SQLite tables become two maps keyed by path; each SQL statement becomes the
 * map update it performs.
 */
module Registry {
  import opened Text
  import opened Wrappers
  import opened Config
  import opened Paths

  const ErrPathNotFound: String := "path not found"
  const ErrPathExists: String := "path already exists"

  /** A remembered root with its configuration and the time of its last walk. */
  datatype RememberedPath = RememberedPath(path: String, config: Option<PathConfig>, lastWalk: Option<int>)

  /**
   * One `file_state` row. Timestamps are instants in nanoseconds; `None` is
   * SQL NULL.
   */
  datatype FileState = FileState(
    path: String,
    contentHash: String,
    metadataHash: String,
    size: int,
    modTime: int,
    lastAnalyzedAt: Option<int>,
    analysisVersion: Option<String>,
    metadataAnalyzedAt: Option<int>,
    semanticAnalyzedAt: Option<int>,
    semanticError: Option<String>,
    semanticRetryCount: int,
    embeddingsAnalyzedAt: Option<int>,
    embeddingsError: Option<String>,
    embeddingsRetryCount: int)

  /** What a stat of a remembered root reports. */
  datatype PathHealth = HealthOk | HealthMissing | HealthDenied | HealthError

  /** The one case of `filepath.Clean` the model keeps: the empty path is ".". */
  function Cleaned(path: String): (r: String)
    ensures r != []
    ensures path != [] ==> r == path
  {
    if path == [] then "." else path
  }

  // ---------------------------------------------------------------------
  // The analysis state of one file, as each UPDATE leaves it.

  /** A row as first inserted: analysis columns NULL, retry counts 0. */
  function BlankState(path: String): FileState
  {
    FileState(path, [], [], 0, 0, None, None, None, None, None, 0, None, None, 0)
  }

  /** `UpdateMetadataState`: new hashes, size and time, and the metadata timestamp. */
  function WithMetadata(f: FileState, contentHash: String, metadataHash: String, size: int, modTime: int, now: int): (g: FileState)
    ensures g.metadataAnalyzedAt == Some(now)
    ensures g == f.(contentHash := contentHash, metadataHash := metadataHash, size := size,
                    modTime := modTime, metadataAnalyzedAt := Some(now))
  {
    f.(contentHash := contentHash, metadataHash := metadataHash, size := size,
       modTime := modTime, metadataAnalyzedAt := Some(now))
  }

  /**
   * `UpdateSemanticState`: success stamps the time and version, clears the
   * error and zeroes the retry count; failure records the error and counts
   * one more retry. Nothing else changes.
   */
  function AfterSemantic(f: FileState, version: String, err: Option<String>, now: int): (g: FileState)
    ensures g.path == f.path && g.metadataAnalyzedAt == f.metadataAnalyzedAt
    ensures g.embeddingsAnalyzedAt == f.embeddingsAnalyzedAt && g.embeddingsRetryCount == f.embeddingsRetryCount
    ensures err.None? ==>
      g.semanticAnalyzedAt == Some(now) && g.lastAnalyzedAt == Some(now) && g.analysisVersion == Some(version)
      && g.semanticError == None && g.semanticRetryCount == 0
    ensures err.Some? ==>
      g == f.(semanticError := err, semanticRetryCount := f.semanticRetryCount + 1)
  {
    if err.None? then
      f.(semanticAnalyzedAt := Some(now), analysisVersion := Some(version), semanticError := None,
         semanticRetryCount := 0, lastAnalyzedAt := Some(now))
    else
      f.(semanticError := err, semanticRetryCount := f.semanticRetryCount + 1)
  }

  /** `UpdateEmbeddingsState`: the same pattern for the embeddings columns. */
  function AfterEmbeddings(f: FileState, err: Option<String>, now: int): (g: FileState)
    ensures g.path == f.path && g.metadataAnalyzedAt == f.metadataAnalyzedAt
    ensures g.semanticAnalyzedAt == f.semanticAnalyzedAt && g.semanticRetryCount == f.semanticRetryCount
    ensures err.None? ==>
      g.embeddingsAnalyzedAt == Some(now) && g.embeddingsError == None && g.embeddingsRetryCount == 0
    ensures err.Some? ==>
      g == f.(embeddingsError := err, embeddingsRetryCount := f.embeddingsRetryCount + 1)
  {
    if err.None? then
      f.(embeddingsAnalyzedAt := Some(now), embeddingsError := None, embeddingsRetryCount := 0)
    else
      f.(embeddingsError := err, embeddingsRetryCount := f.embeddingsRetryCount + 1)
  }

  /** `ClearAnalysisState`: every analysis column NULL and both retry counts 0; identity and hashes kept. */
  function Cleared(f: FileState): (g: FileState)
    ensures g.path == f.path && g.contentHash == f.contentHash && g.metadataHash == f.metadataHash
    ensures g.size == f.size && g.modTime == f.modTime
    ensures g.lastAnalyzedAt == None && g.analysisVersion == None
    ensures g.metadataAnalyzedAt == g.semanticAnalyzedAt == g.embeddingsAnalyzedAt == None
    ensures g.semanticError == None && g.embeddingsError == None
    ensures g.semanticRetryCount == 0 && g.embeddingsRetryCount == 0
  {
    f.(lastAnalyzedAt := None, analysisVersion := None, metadataAnalyzedAt := None,
       semanticAnalyzedAt := None, semanticError := None, semanticRetryCount := 0,
       embeddingsAnalyzedAt := None, embeddingsError := None, embeddingsRetryCount := 0)
  }

  // The scheduling filters of the `ListFilesNeeding*` queries.

  predicate NeedsMetadata(f: FileState)
  {
    f.metadataAnalyzedAt.None?
  }

  predicate NeedsSemantic(f: FileState, maxRetries: int)
  {
    f.metadataAnalyzedAt.Some? && f.semanticAnalyzedAt.None? && f.semanticRetryCount < maxRetries
  }

  predicate NeedsEmbeddings(f: FileState, maxRetries: int)
  {
    f.semanticAnalyzedAt.Some? && f.embeddingsAnalyzedAt.None? && f.embeddingsRetryCount < maxRetries
  }

  /**
   * A cleared file is due for metadata only; once metadata is recorded it is
   * due for semantic analysis exactly when retries are allowed at all.
   */
  lemma ClearedRestartsPipeline(f: FileState, contentHash: String, metadataHash: String, size: int, modTime: int, now: int, maxRetries: int)
    ensures NeedsMetadata(Cleared(f)) && !NeedsSemantic(Cleared(f), maxRetries) && !NeedsEmbeddings(Cleared(f), maxRetries)
    ensures var g := WithMetadata(Cleared(f), contentHash, metadataHash, size, modTime, now);
      !NeedsMetadata(g) && (NeedsSemantic(g, maxRetries) <==> maxRetries > 0) && !NeedsEmbeddings(g, maxRetries)
  {
  }

  /**
   * A semantic success takes the file off the semantic list and puts it on the
   * embeddings list unless embeddings are done or exhausted.
   */
  lemma SemanticSuccessAdvances(f: FileState, version: String, now: int, maxRetries: int)
    ensures var g := AfterSemantic(f, version, None, now);
      !NeedsSemantic(g, maxRetries)
      && (NeedsEmbeddings(g, maxRetries) <==> f.embeddingsAnalyzedAt.None? && f.embeddingsRetryCount < maxRetries)
  {
  }

  /** `k` semantic failures in a row, with the errors in `errs`. */
  function SemanticFailures(f: FileState, errs: seq<String>, now: int): FileState
  {
    if |errs| == 0 then f
    else AfterSemantic(SemanticFailures(f, errs[..|errs| - 1], now), "", Some(errs[|errs| - 1]), now)
  }

  /**
   * Failures only count up: after `k` of them the retry count has grown by
   * `k`, and the file stays due for semantic analysis exactly while that
   * count is below the limit.
   */
  lemma {:induction false} SemanticFailuresExhaust(f: FileState, errs: seq<String>, now: int, maxRetries: int)
    ensures var g := SemanticFailures(f, errs, now);
      g.semanticRetryCount == f.semanticRetryCount + |errs|
      && (NeedsSemantic(g, maxRetries) <==> NeedsSemantic(f, f.semanticRetryCount + |errs| + 1) && f.semanticRetryCount + |errs| < maxRetries)
  {
    if |errs| > 0 {
      SemanticFailuresExhaust(f, errs[..|errs| - 1], now, maxRetries);
    }
  }

  /** Once the embeddings succeed too, the file is on no list. */
  lemma FullyAnalysedNeedsNothing(f: FileState, version: String, now: int, later: int, maxRetries: int)
    requires f.metadataAnalyzedAt.Some?
    ensures var g := AfterEmbeddings(AfterSemantic(f, version, None, now), None, later);
      !NeedsMetadata(g) && !NeedsSemantic(g, maxRetries) && !NeedsEmbeddings(g, maxRetries)
  {
  }

  // ---------------------------------------------------------------------
  // Parent-path scoping of the file-state queries.

  /**
   * SQLite's `LIKE` with no escape character: `%` matches any run, `_` any
   * single character, and other characters match ignoring ASCII case.
   */
  predicate Like(pat: String, s: String)
    decreases |pat| + |s|
  {
    if |pat| == 0 then |s| == 0
    else if pat[0] == '%' then Like(pat[1..], s) || (|s| > 0 && Like(pat, s[1..]))
    else |s| > 0 && (pat[0] == '_' || LowerChar(pat[0]) == LowerChar(s[0])) && Like(pat[1..], s[1..])
  }

  /** `path LIKE parent || '/%' OR path = parent`, as the queries are written. */
  predicate InScopeAsWritten(parent: String, path: String)
  {
    Like(parent + [Sep] + "%", path) || path == parent
  }

  /** A trailing `%` after a pattern matches the pattern's own text followed by anything. */
  lemma {:induction false} LikeOwnPrefix(p: String, rest: String)
    ensures Like(p + "%", p + rest)
    decreases |p|
  {
    if |p| == 0 {
      PercentMatchesAll(rest);
      assert p + "%" == "%" && p + rest == rest;
    } else {
      LikeOwnPrefix(p[1..], rest);
      assert (p + "%")[1..] == p[1..] + "%";
      assert (p + rest)[1..] == p[1..] + rest;
      if p[0] == '%' {
        assert Like(p + "%", p[1..] + rest);
      }
    }
  }

  lemma {:induction false} PercentMatchesAll(s: String)
    ensures Like("%", s)
    decreases |s|
  {
    if |s| > 0 {
      PercentMatchesAll(s[1..]);
    }
  }

  /** The written queries never miss a file that lies under the parent. */
  lemma UnderIsInScope(parent: String, path: String)
    requires Under(path, parent)
    ensures InScopeAsWritten(parent, path)
  {
    if path != parent {
      var rest := path[|parent| + 1..];
      assert path == (parent + [Sep]) + rest;
      LikeOwnPrefix(parent + [Sep], rest);
    }
  }

  /**
   * But they also reach files outside it: `_` in the parent matches any
   * character, and letters match in either case.
   */
  lemma LikeScopeOverreaches()
    ensures InScopeAsWritten("/a_b", "/axb/f") && !Under("/axb/f", "/a_b")
    ensures InScopeAsWritten("/A", "/a/f") && !Under("/a/f", "/A")
  {
    assert Like("%", "");
    assert Like("/%", "/f");
    assert Like("b/%", "b/f");
    assert Like("_b/%", "xb/f");
    assert Like("a_b/%", "axb/f");
    assert "/a_b" + [Sep] + "%" == "/a_b/%";
    assert Like("/a_b/%", "/axb/f");
    assert "/axb/f"[..5] != "/a_b/";
    assert Like("/%", "/f");
    assert Like("A/%", "a/f");
    assert "/A" + [Sep] + "%" == "/A/%";
    assert Like("/A/%", "/a/f");
    assert "/a/f"[..3] != "/A/";
  }

  /** No remembered root contains a path. */
  predicate NoRootContains(roots: set<String>, path: String)
  {
    forall r :: r in roots ==> !Under(path, r)
  }

  predicate UnderAny(roots: set<String>, path: String)
  {
    exists r :: r in roots && Under(path, r)
  }

  class Registry {
    /** `remembered_paths`, keyed by path. */
    var paths: map<String, RememberedPath>
    /** `file_state`, keyed by path. */
    var files: map<String, FileState>

    ghost predicate Valid()
      reads this
    {
      (forall p :: p in paths ==> p != [] && paths[p].path == p)
      && (forall p :: p in files ==> files[p].path == p)
    }

    constructor ()
      ensures Valid() && paths == map[] && files == map[]
    {
      paths := map[];
      files := map[];
    }

    /** Inserting an existing path fails with `ErrPathExists`; otherwise the root is added, never walked. */
    method AddPath(path: String, config: Option<PathConfig>) returns (err: Option<String>)
      requires Valid()
      modifies this
      ensures Valid() && files == old(files)
      ensures Cleaned(path) in old(paths) ==> err == Some(ErrPathExists) && paths == old(paths)
      ensures Cleaned(path) !in old(paths) ==>
        err == None && paths == old(paths)[Cleaned(path) := RememberedPath(Cleaned(path), config, None)]
    {
      var p := Cleaned(path);
      if p in paths {
        return Some(ErrPathExists);
      }
      paths := paths[p := RememberedPath(p, config, None)];
      err := None;
    }

    /** Deleting an absent path fails with `ErrPathNotFound`; otherwise only that root goes. */
    method RemovePath(path: String) returns (err: Option<String>)
      requires Valid()
      modifies this
      ensures Valid() && files == old(files)
      ensures Cleaned(path) !in old(paths) ==> err == Some(ErrPathNotFound) && paths == old(paths)
      ensures Cleaned(path) in old(paths) ==> err == None && paths == old(paths) - {Cleaned(path)}
    {
      var p := Cleaned(path);
      if p !in paths {
        return Some(ErrPathNotFound);
      }
      paths := paths - {p};
      err := None;
    }

    /** `UpdatePathConfig`: replaces the configuration of an existing root. */
    method UpdatePathConfig(path: String, config: Option<PathConfig>) returns (err: Option<String>)
      requires Valid()
      modifies this
      ensures Valid() && files == old(files)
      ensures Cleaned(path) !in old(paths) ==> err == Some(ErrPathNotFound) && paths == old(paths)
      ensures Cleaned(path) in old(paths) ==>
        err == None && paths == old(paths)[Cleaned(path) := old(paths)[Cleaned(path)].(config := config)]
    {
      var p := Cleaned(path);
      if p !in paths {
        return Some(ErrPathNotFound);
      }
      paths := paths[p := paths[p].(config := config)];
      err := None;
    }

    /** `UpdatePathLastWalk`: records the walk time of an existing root. */
    method UpdatePathLastWalk(path: String, lastWalk: int) returns (err: Option<String>)
      requires Valid()
      modifies this
      ensures Valid() && files == old(files)
      ensures Cleaned(path) !in old(paths) ==> err == Some(ErrPathNotFound) && paths == old(paths)
      ensures Cleaned(path) in old(paths) ==>
        err == None && paths == old(paths)[Cleaned(path) := old(paths)[Cleaned(path)].(lastWalk := Some(lastWalk))]
    {
      var p := Cleaned(path);
      if p !in paths {
        return Some(ErrPathNotFound);
      }
      paths := paths[p := paths[p].(lastWalk := Some(lastWalk))];
      err := None;
    }

    /**
     * The deepest remembered root that is the file or one of its ancestors,
     * or `ErrPathNotFound` when no root contains it. The roots are visited in
     * any order; the answer does not depend on it.
     */
    method FindContainingPath(filePath: String) returns (r: Result<RememberedPath>)
      requires Valid()
      ensures r.Ok? ==>
        r.value.path in paths && paths[r.value.path] == r.value && Under(Cleaned(filePath), r.value.path)
        && forall q :: q in paths && Under(Cleaned(filePath), q) ==> |q| <= |r.value.path|
      ensures r.Err? ==> r.error == ErrPathNotFound && NoRootContains(paths.Keys, Cleaned(filePath))
    {
      var f := Cleaned(filePath);
      var remaining := paths.Keys;
      var closest: Option<String> := None;
      var closestLen := 0;
      while remaining != {}
        invariant remaining <= paths.Keys
        invariant closest.None? ==> closestLen == 0
        invariant closest.Some? ==>
          closest.value in paths && Under(f, closest.value) && closestLen == |closest.value|
        invariant forall q :: q in paths && q !in remaining && Under(f, q) ==> |q| <= closestLen
        decreases remaining
      {
        var p :| p in remaining;
        if (HasPrefix(f, p + [Sep]) || f == p) && |p| > closestLen {
          closest := Some(p);
          closestLen := |p|;
        }
        remaining := remaining - {p};
      }
      if closest.None? {
        return Err(ErrPathNotFound);
      }
      r := Ok(paths[closest.value]);
    }

    /** `GetEffectiveConfig`: the configuration of the containing root. */
    method GetEffectiveConfig(filePath: String) returns (r: Result<Option<PathConfig>>)
      requires Valid()
      ensures r.Err? ==> r.error == ErrPathNotFound && NoRootContains(paths.Keys, Cleaned(filePath))
      ensures r.Ok? ==>
        exists q :: q in paths && Under(Cleaned(filePath), q) && r.value == paths[q].config
          && forall q' :: q' in paths && Under(Cleaned(filePath), q') ==> |q'| <= |q|
    {
      var rp := FindContainingPath(filePath);
      if rp.Err? {
        return Err(rp.error);
      }
      r := Ok(rp.value.config);
      var q := rp.value.path;
      assert q in paths && Under(Cleaned(filePath), q) && r.value == paths[q].config;
    }

    /** `UpdateFileState`: insert or overwrite the whole row. */
    method UpdateFileState(state: FileState)
      requires Valid()
      modifies this
      ensures Valid() && paths == old(paths)
      ensures files == old(files)[Cleaned(state.path) := state.(path := Cleaned(state.path))]
    {
      var p := Cleaned(state.path);
      files := files[p := state.(path := p)];
    }

    /** `DeleteFileState`: an absent row is `ErrPathNotFound`. */
    method DeleteFileState(path: String) returns (err: Option<String>)
      requires Valid()
      modifies this
      ensures Valid() && paths == old(paths)
      ensures Cleaned(path) !in old(files) ==> err == Some(ErrPathNotFound) && files == old(files)
      ensures Cleaned(path) in old(files) ==> err == None && files == old(files) - {Cleaned(path)}
    {
      var p := Cleaned(path);
      if p !in files {
        return Some(ErrPathNotFound);
      }
      files := files - {p};
      err := None;
    }

    /** The rows at or beneath `parent`. */
    function ListFileStates(parent: String): (r: set<FileState>)
      requires Valid()
      reads this
      ensures forall f :: f in r <==> f.path in files && files[f.path] == f && Under(f.path, Cleaned(parent))
    {
      set p | p in files && Under(p, Cleaned(parent)) :: files[p]
    }

    /** `DeleteFileStatesForPath`: every row at or beneath `parent` goes, no other. */
    method DeleteFileStatesForPath(parent: String)
      requires Valid()
      modifies this
      ensures Valid() && paths == old(paths)
      ensures forall p :: p in files <==> p in old(files) && !Under(p, Cleaned(parent))
      ensures forall p :: p in files ==> files[p] == old(files)[p]
    {
      var root := Cleaned(parent);
      files := map p | p in files && !Under(p, root) :: files[p];
    }

    /** `UpdateMetadataState`: an upsert of the metadata columns. */
    method UpdateMetadataState(path: String, contentHash: String, metadataHash: String, size: int, modTime: int, now: int)
      requires Valid()
      modifies this
      ensures Valid() && paths == old(paths)
      ensures var p := Cleaned(path);
        var before := if p in old(files) then old(files)[p] else BlankState(p);
        files == old(files)[p := WithMetadata(before, contentHash, metadataHash, size, modTime, now)]
    {
      var p := Cleaned(path);
      var before := if p in files then files[p] else BlankState(p);
      files := files[p := WithMetadata(before, contentHash, metadataHash, size, modTime, now)];
    }

    /** `UpdateSemanticState`: an UPDATE, so an unknown path changes nothing. */
    method UpdateSemanticState(path: String, version: String, err: Option<String>, now: int)
      requires Valid()
      modifies this
      ensures Valid() && paths == old(paths)
      ensures Cleaned(path) !in old(files) ==> files == old(files)
      ensures Cleaned(path) in old(files) ==>
        files == old(files)[Cleaned(path) := AfterSemantic(old(files)[Cleaned(path)], version, err, now)]
    {
      var p := Cleaned(path);
      if p in files {
        files := files[p := AfterSemantic(files[p], version, err, now)];
      }
    }

    /** `UpdateEmbeddingsState`: an UPDATE, so an unknown path changes nothing. */
    method UpdateEmbeddingsState(path: String, err: Option<String>, now: int)
      requires Valid()
      modifies this
      ensures Valid() && paths == old(paths)
      ensures Cleaned(path) !in old(files) ==> files == old(files)
      ensures Cleaned(path) in old(files) ==>
        files == old(files)[Cleaned(path) := AfterEmbeddings(old(files)[Cleaned(path)], err, now)]
    {
      var p := Cleaned(path);
      if p in files {
        files := files[p := AfterEmbeddings(files[p], err, now)];
      }
    }

    /** `ClearAnalysisState`: an UPDATE, so an unknown path changes nothing. */
    method ClearAnalysisState(path: String)
      requires Valid()
      modifies this
      ensures Valid() && paths == old(paths)
      ensures Cleaned(path) !in old(files) ==> files == old(files)
      ensures Cleaned(path) in old(files) ==> files == old(files)[Cleaned(path) := Cleared(old(files)[Cleaned(path)])]
    {
      var p := Cleaned(path);
      if p in files {
        files := files[p := Cleared(files[p])];
      }
    }

    function ListFilesNeedingMetadata(parent: String): (r: set<FileState>)
      requires Valid()
      reads this
      ensures forall f :: f in r <==> f in ListFileStates(parent) && NeedsMetadata(f)
    {
      set f | f in ListFileStates(parent) && NeedsMetadata(f)
    }

    function ListFilesNeedingSemantic(parent: String, maxRetries: int): (r: set<FileState>)
      requires Valid()
      reads this
      ensures forall f :: f in r <==> f in ListFileStates(parent) && NeedsSemantic(f, maxRetries)
    {
      set f | f in ListFileStates(parent) && NeedsSemantic(f, maxRetries)
    }

    function ListFilesNeedingEmbeddings(parent: String, maxRetries: int): (r: set<FileState>)
      requires Valid()
      reads this
      ensures forall f :: f in r <==> f in ListFileStates(parent) && NeedsEmbeddings(f, maxRetries)
    {
      set f | f in ListFileStates(parent) && NeedsEmbeddings(f, maxRetries)
    }

    /**
     * `ValidateAndCleanPaths`: every root whose stat says it is missing loses
     * its file rows and is forgotten; roots that are denied or in error stay.
     * `health` stands for the stat of each root.
     */
    method ValidateAndCleanPaths(health: String -> PathHealth) returns (removed: seq<String>)
      requires Valid()
      modifies this
      ensures Valid()
      ensures forall p :: p in removed <==> p in old(paths) && health(p) == HealthMissing
      ensures forall i, j :: 0 <= i < j < |removed| ==> removed[i] != removed[j]
      ensures forall p :: p in paths <==> p in old(paths) && health(p) != HealthMissing
      ensures forall p :: p in paths ==> paths[p] == old(paths)[p]
      ensures forall p :: p in files <==> p in old(files) && !(exists q :: q in removed && Under(p, q))
      ensures forall p :: p in files ==> files[p] == old(files)[p]
    {
      var remaining := paths.Keys;
      ghost var done: set<String> := {};
      removed := [];
      while remaining != {}
        invariant Valid()
        invariant remaining <= old(paths).Keys && done <= old(paths).Keys
        invariant forall p :: p in old(paths) ==> p != []
        invariant remaining !! done
        invariant forall p :: p in done <==> p in old(paths) && p !in remaining && health(p) == HealthMissing
        invariant forall p :: p in removed <==> p in done
        invariant forall i, j :: 0 <= i < j < |removed| ==> removed[i] != removed[j]
        invariant forall p :: p in paths <==> p in old(paths) && p !in done
        invariant forall p :: p in paths ==> paths[p] == old(paths)[p]
        invariant forall p :: p in files <==> p in old(files) && !UnderAny(done, p)
        invariant forall p :: p in files ==> files[p] == old(files)[p]
        decreases remaining
      {
        var p :| p in remaining;
        if health(p) == HealthMissing {
          DeleteFileStatesForPath(p);
          var _ := RemovePath(p);
          removed := removed + [p];
          done := done + {p};
        }
        remaining := remaining - {p};
      }
    }
  }
}
