/**
 * The `remember` command's configuration helpers: extension lists made
 * dot-prefixed, lists merged without repeats, and the flags applied to an
 * existing configuration or to the defaults.
 */
module Remember {
  import opened Text
  import opened Wrappers
  import opened Config

  // ---------------------------------------------------------------------
  // Extensions

  /** `TrimSpace` leaves text alone that neither starts nor ends with a space. */
  lemma TrimmedStays(s: String)
    requires s == [] || (!IsSpace(s[0]) && !IsSpace(s[|s| - 1]))
    ensures TrimSpace(s) == s
  {
    if s != [] {
      assert LeadingIn(s, IsSpace) == 0;
      assert TrimLeft(s) == s;
      assert KeptIn(s, IsSpace) == |s|;
    }
  }

  /** One entry of `normalizeExtensions`: trimmed, and dot-prefixed unless empty. */
  function NormalizeExtension(ext: String): (r: String)
    ensures r == [] <==> IsBlank(ext)
    ensures r != [] ==> r[0] == '.'
    ensures r == TrimSpace(ext) || r == "." + TrimSpace(ext)
    ensures HasPrefix(TrimSpace(ext), ".") ==> r == TrimSpace(ext)
    ensures r == [] || !IsSpace(r[|r| - 1])
  {
    var t := TrimSpace(ext);
    if t != [] && !HasPrefix(t, ".") then "." + t else t
  }

  /** Normalising twice gives what normalising once gives. */
  lemma NormalizeIdempotent(ext: String)
    ensures NormalizeExtension(NormalizeExtension(ext)) == NormalizeExtension(ext)
  {
    var r := NormalizeExtension(ext);
    TrimmedStays(r);
    if r != [] {
      assert HasPrefix(r, ".");
    }
  }

  /** `normalizeExtensions`: each entry normalised in place, the length kept. */
  method NormalizeExtensions(exts: seq<String>) returns (result: seq<String>)
    ensures |result| == |exts|
    ensures forall i :: 0 <= i < |exts| ==> result[i] == NormalizeExtension(exts[i])
  {
    hide NormalizeExtension;
    result := seq(|exts|, _ => []);
    for i := 0 to |exts|
      invariant |result| == |exts|
      invariant forall k :: 0 <= k < i ==> result[k] == NormalizeExtension(exts[k])
    {
      result := result[i := NormalizeExtension(exts[i])];
    }
  }

  /** The entries of `exts`, each normalised. */
  function Normalized(exts: seq<String>): (r: seq<String>)
    ensures |r| == |exts| && forall i :: 0 <= i < |exts| ==> r[i] == NormalizeExtension(exts[i])
  {
    seq(|exts|, i requires 0 <= i < |exts| => NormalizeExtension(exts[i]))
  }

  // ---------------------------------------------------------------------
  // Merging

  /** `xs` without repeats, each entry where it first occurs. */
  function Merged(xs: seq<String>): seq<String>
  {
    if |xs| == 0 then []
    else
      var m := Merged(xs[..|xs| - 1]);
      var x := xs[|xs| - 1];
      if x in m then m else m + [x]
  }

  predicate NoRepeats(xs: seq<String>)
  {
    forall i, j :: 0 <= i < j < |xs| ==> xs[i] != xs[j]
  }

  /** Where `x` first occurs in `xs`. */
  function FirstAt(xs: seq<String>, x: String): (i: nat)
    requires x in xs
    ensures i < |xs| && xs[i] == x && x !in xs[..i]
  {
    var init := xs[..|xs| - 1];
    if x in init then
      var i := FirstAt(init, x);
      assert xs[..i] == init[..i];
      i
    else
      assert xs[..|xs| - 1] == init;
      |xs| - 1
  }

  /**
   * The merge has no repeats, holds exactly the entries of `xs`, and keeps
   * them in the order of their first occurrence.
   */
  lemma {:induction false} MergedSound(xs: seq<String>)
    ensures var m := Merged(xs);
      && NoRepeats(m)
      && (forall x :: x in m <==> x in xs)
      && forall i, j :: 0 <= i < j < |m| ==> FirstAt(xs, m[i]) < FirstAt(xs, m[j])
    decreases |xs|
  {
    if |xs| > 0 {
      var init := xs[..|xs| - 1];
      var x := xs[|xs| - 1];
      MergedSound(init);
      var m0 := Merged(init);
      assert forall y :: y in xs <==> y in init || y == x;
      forall y | y in init
        ensures FirstAt(xs, y) == FirstAt(init, y)
      {
        FirstAtPrefix(xs, init, y);
      }
      if x !in m0 {
        assert x !in init;
        var m := m0 + [x];
        forall i | 0 <= i < |m0|
          ensures FirstAt(xs, m[i]) < |xs| - 1
        {
          assert m[i] in init;
        }
      }
    }
  }

  /** The first occurrence of an entry of a prefix is where the prefix has it. */
  lemma {:induction false} FirstAtPrefix(xs: seq<String>, init: seq<String>, y: String)
    requires |init| <= |xs| && init == xs[..|init|] && y in init
    ensures FirstAt(xs, y) == FirstAt(init, y)
  {
  }

  /** Merging more entries only adds after what was merged before. */
  lemma {:induction false} MergedExtends(xs: seq<String>, ys: seq<String>)
    ensures var a, b := Merged(xs), Merged(xs + ys);
      |a| <= |b| && b[..|a|] == a
    decreases |ys|
  {
    if |ys| == 0 {
      assert xs + ys == xs;
    } else {
      var init := ys[..|ys| - 1];
      MergedExtends(xs, init);
      assert (xs + ys)[..|xs + ys| - 1] == xs + init;
    }
  }

  /** A list without repeats merges to itself. */
  lemma {:induction false} MergedNoRepeats(xs: seq<String>)
    requires NoRepeats(xs)
    ensures Merged(xs) == xs
    decreases |xs|
  {
    if |xs| > 0 {
      var init := xs[..|xs| - 1];
      MergedNoRepeats(init);
      assert xs[|xs| - 1] !in init;
      assert init + [xs[|xs| - 1]] == xs;
    }
  }

  /** `mergeUnique`: `base` then `additions`, each entry once, where it first occurs. */
  method MergeUnique(base: seq<String>, additions: seq<String>) returns (result: seq<String>)
    ensures result == Merged(base + additions)
  {
    var seen: set<String> := {};
    result := [];
    for i := 0 to |base|
      invariant result == Merged(base[..i])
      invariant forall x :: x in seen <==> x in result
    {
      assert base[..i + 1][..i] == base[..i];
      if base[i] !in seen {
        seen := seen + {base[i]};
        result := result + [base[i]];
      }
    }
    assert base[..|base|] == base + additions[..0];
    for j := 0 to |additions|
      invariant result == Merged(base + additions[..j])
      invariant forall x :: x in seen <==> x in result
    {
      assert (base + additions[..j + 1])[..|base| + j] == base + additions[..j];
      if additions[j] !in seen {
        seen := seen + {additions[j]};
        result := result + [additions[j]];
      }
    }
    assert additions[..|additions|] == additions;
  }

  // ---------------------------------------------------------------------
  // Flags

  /** A `set-*` flag and its `add-*` partner: `None` when not given. */
  datatype ListFlag = ListFlag(setTo: Option<seq<String>>, addAll: Option<seq<String>>)

  /**
   * The flags `remember` was given. `skipHidden` is `Some` only when
   * `--skip-hidden` was given explicitly; the include lists have only
   * `add-*` flags.
   */
  datatype Flags = Flags(
    skipHidden: Option<bool>,
    skipExt: ListFlag,
    skipDir: ListFlag,
    skipFile: ListFlag,
    includeExt: Option<seq<String>>,
    includeDir: Option<seq<String>>,
    includeFile: Option<seq<String>>,
    useVision: Option<bool>)

  /** The `defaults` section of the daemon's configuration. */
  datatype Defaults = Defaults(
    skipHidden: bool,
    skipExtensions: seq<String>,
    skipDirectories: seq<String>,
    skipFiles: seq<String>,
    includeExtensions: seq<String>,
    includeDirectories: seq<String>,
    includeFiles: seq<String>)

  /** The entries a flag brings, normalised when they are extensions. */
  function Given(xs: seq<String>, extensions: bool): seq<String>
  {
    if extensions then Normalized(xs) else xs
  }

  /** A list after its flags: `set-*` replaces it, else `add-*` merges into it, else it stays. */
  function Updated(current: seq<String>, flag: ListFlag, extensions: bool): seq<String>
  {
    if flag.setTo.Some? then Given(flag.setTo.value, extensions)
    else Added(current, flag.addAll, extensions)
  }

  /** A list after an `add-*` flag alone. */
  function Added(current: seq<String>, add: Option<seq<String>>, extensions: bool): seq<String>
  {
    if add.Some? then Merged(current + Given(add.value, extensions)) else current
  }

  /**
   * A `set-*` flag gives its entries whatever the list was; an `add-*`
   * flag alone keeps the list's entries first, without repeats, and adds
   * each new entry once; no flag leaves the list as it was.
   */
  lemma UpdatedSound(current: seq<String>, other: seq<String>, flag: ListFlag, extensions: bool)
    ensures flag.setTo.Some? ==> Updated(current, flag, extensions) == Updated(other, flag, extensions)
    ensures flag.setTo.None? && flag.addAll.None? ==> Updated(current, flag, extensions) == current
    ensures flag.setTo.None? && flag.addAll.Some? ==>
      var r := Updated(current, flag, extensions);
      && NoRepeats(r)
      && (forall x :: x in r <==> x in current || x in Given(flag.addAll.value, extensions))
      && (NoRepeats(current) ==> |current| <= |r| && r[..|current|] == current)
  {
    if flag.setTo.None? && flag.addAll.Some? {
      var add := Given(flag.addAll.value, extensions);
      MergedSound(current + add);
      assert forall x :: x in current + add <==> x in current || x in add;
      if NoRepeats(current) {
        MergedExtends(current, add);
        MergedNoRepeats(current);
      }
    }
  }

  /**
   * `buildUpdatedConfig`'s result: the existing configuration (an empty
   * one when there is none) with each given flag applied.
   */
  function UpdatedConfig(existing: Option<PathConfig>, flags: Flags): (cfg: PathConfig)
    ensures var base := if existing.Some? then existing.value else EmptyConfig;
      && cfg.skipHidden == (if flags.skipHidden.Some? then flags.skipHidden.value else base.skipHidden)
      && cfg.useVision == (if flags.useVision.Some? then flags.useVision else base.useVision)
  {
    var base := if existing.Some? then existing.value else EmptyConfig;
    PathConfig(
      if flags.skipHidden.Some? then flags.skipHidden.value else base.skipHidden,
      Updated(base.skipExtensions, flags.skipExt, true),
      Updated(base.skipDirectories, flags.skipDir, false),
      Updated(base.skipFiles, flags.skipFile, false),
      Added(base.includeExtensions, flags.includeExt, true),
      Added(base.includeDirectories, flags.includeDir, false),
      Added(base.includeFiles, flags.includeFile, false),
      if flags.useVision.Some? then flags.useVision else base.useVision)
  }

  /** No flags at all. */
  const NoFlags := Flags(None, ListFlag(None, None), ListFlag(None, None), ListFlag(None, None), None, None, None, None)

  /**
   * Without an existing configuration the update starts from the empty one,
   * and with no flags it gives back the existing configuration unchanged.
   */
  lemma UpdatedConfigBase(existing: Option<PathConfig>, flags: Flags)
    ensures existing.None? ==> UpdatedConfig(existing, flags) == UpdatedConfig(Some(EmptyConfig), flags)
    ensures existing.Some? ==> UpdatedConfig(existing, NoFlags) == existing.value
  {
  }

  /** `buildUpdatedConfig`: a copy of the existing configuration, its fields overridden one flag at a time. */
  method BuildUpdatedConfig(existing: Option<PathConfig>, flags: Flags) returns (cfg: PathConfig)
    ensures cfg == UpdatedConfig(existing, flags)
  {
    cfg := if existing.Some? then existing.value else EmptyConfig;
    if flags.skipHidden.Some? {
      cfg := cfg.(skipHidden := flags.skipHidden.value);
    }
    var skipExt := ApplyListFlag(cfg.skipExtensions, flags.skipExt, true);
    cfg := cfg.(skipExtensions := skipExt);
    var skipDir := ApplyListFlag(cfg.skipDirectories, flags.skipDir, false);
    cfg := cfg.(skipDirectories := skipDir);
    var skipFile := ApplyListFlag(cfg.skipFiles, flags.skipFile, false);
    cfg := cfg.(skipFiles := skipFile);
    var includeExt := ApplyAddFlag(cfg.includeExtensions, flags.includeExt, true);
    cfg := cfg.(includeExtensions := includeExt);
    var includeDir := ApplyAddFlag(cfg.includeDirectories, flags.includeDir, false);
    cfg := cfg.(includeDirectories := includeDir);
    var includeFile := ApplyAddFlag(cfg.includeFiles, flags.includeFile, false);
    cfg := cfg.(includeFiles := includeFile);
    if flags.useVision.Some? {
      cfg := cfg.(useVision := flags.useVision);
    }
  }

  /** One `set-*`/`add-*` pair applied to a list. */
  method ApplyListFlag(current: seq<String>, flag: ListFlag, extensions: bool) returns (r: seq<String>)
    ensures r == Updated(current, flag, extensions)
  {
    hide Merged, NormalizeExtension;
    if flag.setTo.Some? {
      r := flag.setTo.value;
      if extensions {
        r := NormalizeExtensions(r);
      }
      assert r == Given(flag.setTo.value, extensions);
    } else {
      r := ApplyAddFlag(current, flag.addAll, extensions);
    }
  }

  /** One `add-*` flag applied to a list. */
  method ApplyAddFlag(current: seq<String>, add: Option<seq<String>>, extensions: bool) returns (r: seq<String>)
    ensures r == Added(current, add, extensions)
  {
    hide Merged, NormalizeExtension;
    r := current;
    if add.Some? {
      var given := add.value;
      if extensions {
        given := NormalizeExtensions(given);
      }
      assert given == Given(add.value, extensions);
      r := MergeUnique(current, given);
    }
  }

  /** The defaults as a configuration, vision unset. */
  function FromDefaults(d: Defaults): PathConfig
  {
    PathConfig(d.skipHidden, d.skipExtensions, d.skipDirectories, d.skipFiles,
               d.includeExtensions, d.includeDirectories, d.includeFiles, None)
  }

  /** `buildPathConfig`: the defaults with each given flag applied; vision is the flag's value, unset when not given. */
  method BuildPathConfig(defaults: Defaults, flags: Flags) returns (cfg: PathConfig)
    ensures cfg.useVision == flags.useVision
    ensures cfg.skipHidden == (if flags.skipHidden.Some? then flags.skipHidden.value else defaults.skipHidden)
    ensures cfg == UpdatedConfig(Some(FromDefaults(defaults)), flags)
  {
    cfg := PathConfig(defaults.skipHidden, [], [], [], [], [], [], flags.useVision);
    if flags.skipHidden.Some? {
      cfg := cfg.(skipHidden := flags.skipHidden.value);
    }
    var skipExt := ApplyListFlag(defaults.skipExtensions, flags.skipExt, true);
    var skipDir := ApplyListFlag(defaults.skipDirectories, flags.skipDir, false);
    var skipFile := ApplyListFlag(defaults.skipFiles, flags.skipFile, false);
    var includeExt := ApplyAddFlag(defaults.includeExtensions, flags.includeExt, true);
    var includeDir := ApplyAddFlag(defaults.includeDirectories, flags.includeDir, false);
    var includeFile := ApplyAddFlag(defaults.includeFiles, flags.includeFile, false);
    cfg := cfg.(skipExtensions := skipExt, skipDirectories := skipDir, skipFiles := skipFile,
                includeExtensions := includeExt, includeDirectories := includeDir, includeFiles := includeFile);
  }
}
