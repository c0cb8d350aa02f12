/**
 * The process-wide settings: Init, Load, the watcher callbacks and Snapshot as a state machine, with all
 * or nothing replacement. Each operation holds the lock throughout, so they are steps.
 */
module SettingsStore {
  import opened Basics
  import opened Configuration

  /** What a provider answers when asked to watch its file. */
  datatype Watch = Attached | NotWatchable | Refused

  /** providers and watchers are paths. */
  datatype Store = Store(
    tree: Tree,
    providers: seq<string>,
    cached: Settings,
    ready: bool,
    watchers: seq<string>)

  const NEW_STORE := Store(EMPTY, [], NO_SETTINGS, false, [])

  /**
   * An operation with what the files hold while it runs: files(i) is what the i-th provider returns, and
   * watch(i) how it answers Watch.
   */
  datatype Operation =
    | Init(paths: seq<string>, watching: bool, files: nat -> Content, watch: nat -> Watch)
    | Load(files: nat -> Content)
    | Callback(failed: bool, files: nat -> Content)

  function Read(n: nat, files: nat -> Content): (r: seq<Content>)
    ensures |r| == n && forall i :: 0 <= i < n ==> r[i] == files(i)
  {
    seq(n, i requires 0 <= i => files(i))
  }

  /** The first provider to refuse, or the number of providers. */
  function AttachedUntil(n: nat, watch: nat -> Watch): (r: nat)
    ensures r <= n && (forall i :: 0 <= i < r ==> !watch(i).Refused?) && (r < n ==> watch(r).Refused?)
  {
    if n == 0 then 0
    else
      var r := AttachedUntil(n - 1, watch);
      if r < n - 1 || watch(n - 1).Refused? then r else n
  }

  /** The paths of the first n providers that now call back. */
  function Watched(paths: seq<string>, n: nat, watch: nat -> Watch): seq<string>
    requires n <= |paths|
  {
    if n == 0 then []
    else Watched(paths, n - 1, watch) + if watch(n - 1).Attached? then [paths[n - 1]] else []
  }

  function PathsOf(paths: seq<string>, defaults: seq<string>): seq<string> {
    if paths == [] then defaults else paths
  }

  function AfterLoad(s: Store, providers: seq<string>, contents: seq<Content>): (Store, Option<Error>) {
    match Loaded(contents)
    case Err(e) => (s, Some(e))
    case Ok((tree, settings)) =>
      (s.(tree := tree, providers := providers, cached := settings, ready := true), None)
  }

  function AfterInit(s: Store, defaults: seq<string>, op: Operation): (Store, Option<Error>)
    requires op.Init?
  {
    if s.ready then (s, None)
    else
      var paths := PathsOf(op.paths, defaults);
      var (next, error) := AfterLoad(s, paths, Read(|paths|, op.files));
      if error.Some? || !op.watching then (next, error)
      else
        var n := AttachedUntil(|paths|, op.watch);
        var watchers := s.watchers + Watched(paths, n, op.watch);
        if n < |paths| then (s.(watchers := watchers), Some(WatchError))
        else (next.(watchers := watchers), None)
  }

  /** One operation: the new state, and the error it reports. A callback logs its error. */
  function Step(s: Store, defaults: seq<string>, op: Operation): (Store, Option<Error>) {
    match op
    case Init(_, _, _, _) => AfterInit(s, defaults, op)
    case Load(files) => AfterLoad(s, s.providers, Read(|s.providers|, files))
    case Callback(failed, files) => if failed then (s, None) else AfterLoad(s, s.providers, Read(|s.providers|, files))
  }

  function Run(s: Store, defaults: seq<string>, ops: seq<Operation>): Store {
    if ops == [] then s else Step(Run(s, defaults, ops[..|ops| - 1]), defaults, ops[|ops| - 1]).0
  }

  // ---------- properties ----------

  /** What Snapshot can return. */
  predicate SameView(a: Store, b: Store) {
    a.tree == b.tree && a.providers == b.providers && a.cached == b.cached && a.ready == b.ready
  }

  /** Failing changes nothing but, for a failed Init, the watchers it leaves behind; so does an Init when ready. */
  lemma AllOrNothing(s: Store, defaults: seq<string>, op: Operation)
    ensures Step(s, defaults, op).1.Some? ==> SameView(Step(s, defaults, op).0, s)
    ensures op.Init? && s.ready ==> Step(s, defaults, op) == (s, None)
    ensures op.Callback? && op.failed ==> Step(s, defaults, op).0 == s
    ensures !op.Init? ==> Step(s, defaults, op).0.watchers == s.watchers
  {
  }

  /** The operation loads successfully: it replaces the whole view. */
  predicate Replaces(s: Store, defaults: seq<string>, op: Operation) {
    match op
    case Init(_, _, _, _) => !s.ready && Step(s, defaults, op).1.None?
    case Load(_) => Step(s, defaults, op).1.None?
    case Callback(failed, files) => !failed && Loaded(Read(|s.providers|, files)).Ok?
  }

  lemma SuccessReplacesAll(s: Store, defaults: seq<string>, op: Operation)
    ensures var t := Step(s, defaults, op).0;
            if Replaces(s, defaults, op) then
              && t.ready && Loaded(Read(|t.providers|, op.files)) == Ok((t.tree, t.cached))
              && (op.Init? ==> Chosen(op.paths, defaults, t.providers)) && (!op.Init? ==> t.providers == s.providers)
            else SameView(t, s)
  {
  }

  /** Init falls back to the default paths when it is given none. */
  predicate Chosen(paths: seq<string>, defaults: seq<string>, chosen: seq<string>) {
    (paths != [] ==> chosen == paths) && (paths == [] ==> chosen == defaults)
  }

  /** How many of the first n providers agree to call back. */
  function Agreeing(n: nat, watch: nat -> Watch): nat {
    if n == 0 then 0 else Agreeing(n - 1, watch) + if watch(n - 1).Attached? then 1 else 0
  }

  /** added are the paths of those of the first n providers that agree to call back, in order, and nothing else. */
  ghost predicate Attaches(paths: seq<string>, n: nat, watch: nat -> Watch, added: seq<string>)
    requires n <= |paths|
  {
    && |added| == Agreeing(n, watch)
    && forall i: nat :: i < n && watch(i).Attached? ==>
         Agreeing(i, watch) < |added| && added[Agreeing(i, watch)] == paths[i]
  }

  lemma {:induction false} WatchedExactly(paths: seq<string>, n: nat, watch: nat -> Watch)
    requires n <= |paths|
    ensures Attaches(paths, n, watch, Watched(paths, n, watch))
  {
    if n > 0 {
      WatchedExactly(paths, n - 1, watch);
    }
  }

  /**
   * An Init before settings are ready: the given paths, or the default ones, are all read; an error of loading them
   * comes first and changes nothing; then, if they are to be watched, the providers are asked one after the other,
   * and the first refusal is an error that leaves the earlier ones attached; and then these paths, what was read and
   * readiness are set, all together.
   */
  lemma InitExactly(s: Store, defaults: seq<string>, op: Operation, chosen: seq<string>)
    requires op.Init? && !s.ready && Chosen(op.paths, defaults, chosen)
    ensures var (t, error) := Step(s, defaults, op);
            var loaded := Loaded(Read(|chosen|, op.files));
            && (loaded.Err? ==> t == s && error == Some(loaded.error))
            && (loaded.Ok? ==> InitLoaded(s, op, chosen, loaded.value, t, error))
  {
    assert PathsOf(op.paths, defaults) == chosen;
    var loaded := Loaded(Read(|chosen|, op.files));
    if loaded.Ok? {
      InitWatches(s, defaults, op, chosen);
    }
  }

  /** What an Init that could load comes to. */
  ghost predicate InitLoaded(
      s: Store, op: Operation, chosen: seq<string>, loaded: (Tree, Settings), t: Store, error: Option<Error>)
    requires op.Init?
  {
    var n := if op.watching then AttachedUntil(|chosen|, op.watch) else 0;
    var refused := op.watching && exists i: nat :: i < |chosen| && op.watch(i).Refused?;
    && s.watchers <= t.watchers && Attaches(chosen, n, op.watch, t.watchers[|s.watchers|..])
    && (refused ==> SameView(t, s) && error == Some(WatchError))
    && (!refused ==> error.None? && t.ready && t.providers == chosen && (t.tree, t.cached) == loaded)
  }

  lemma InitWatches(s: Store, defaults: seq<string>, op: Operation, chosen: seq<string>)
    requires op.Init? && !s.ready && PathsOf(op.paths, defaults) == chosen
    requires Loaded(Read(|chosen|, op.files)).Ok?
    ensures var (t, error) := Step(s, defaults, op);
            InitLoaded(s, op, chosen, Loaded(Read(|chosen|, op.files)).value, t, error)
  {
    var n := if op.watching then AttachedUntil(|chosen|, op.watch) else 0;
    var added := Watched(chosen, n, op.watch);
    WatchedExactly(chosen, n, op.watch);
    assert (s.watchers + added)[|s.watchers|..] == added;
    if !op.watching {
      assert s.watchers + [] == s.watchers;
    }
  }

  /** Only an Init chooses providers; a reload reports what kept it from loading them. */
  lemma ReloadExactly(s: Store, defaults: seq<string>, op: Operation)
    requires op.Load? || (op.Callback? && !op.failed)
    ensures var (t, error) := Step(s, defaults, op);
            var loaded := Loaded(Read(|s.providers|, op.files));
            && t.providers == s.providers && t.watchers == s.watchers
            && (loaded.Err? ==> t == s && error == Some(loaded.error))
            && (loaded.Ok? ==> error.None? && t.ready && Ok((t.tree, t.cached)) == loaded)
  {
  }

  /** The run without the operations that failed or came too late. */
  function Effective(defaults: seq<string>, ops: seq<Operation>): seq<Operation> {
    if ops == [] then []
    else
      var rest, last := ops[..|ops| - 1], ops[|ops| - 1];
      Effective(defaults, rest) + if Replaces(Run(NEW_STORE, defaults, rest), defaults, last) then [last] else []
  }

  lemma RunLast(s: Store, defaults: seq<string>, ops: seq<Operation>, op: Operation)
    ensures Run(s, defaults, ops + [op]) == Step(Run(s, defaults, ops), defaults, op).0
  {
    assert (ops + [op])[..|ops|] == ops;
  }

  lemma SameViewSameStep(a: Store, b: Store, defaults: seq<string>, op: Operation)
    requires SameView(a, b)
    ensures SameView(Step(a, defaults, op).0, Step(b, defaults, op).0)
  {
  }

  /**
   * Failures leave no trace: in every run, dropping each Init, Load and callback that failed, and each Init
   * that came when settings were ready, gives the same tree, providers, cache and readiness.
   */
  lemma {:induction false} FailuresLeaveNoTrace(defaults: seq<string>, ops: seq<Operation>)
    ensures SameView(Run(NEW_STORE, defaults, ops), Run(NEW_STORE, defaults, Effective(defaults, ops)))
  {
    if ops != [] {
      var rest, last := ops[..|ops| - 1], ops[|ops| - 1];
      var s, e := Run(NEW_STORE, defaults, rest), Effective(defaults, rest);
      FailuresLeaveNoTrace(defaults, rest);
      SuccessReplacesAll(s, defaults, last);
      if Replaces(s, defaults, last) {
        RunLast(NEW_STORE, defaults, e, last);
        SameViewSameStep(s, Run(NEW_STORE, defaults, e), defaults, last);
      } else {
        assert Effective(defaults, ops) == e + [] == e;
        assert SameView(Run(NEW_STORE, defaults, ops), s);
      }
    }
  }

  /** Before settings are ready there are no providers. */
  predicate Consistent(s: Store) {
    s.ready || s.providers == []
  }

  lemma StepConsistent(s: Store, defaults: seq<string>, op: Operation)
    requires Consistent(s)
    ensures Consistent(Step(s, defaults, op).0)
  {
    NothingNeverLoads();
    assert !s.ready && !op.Init? ==> Read(|s.providers|, op.files) == [];
  }

  lemma {:induction false} RunConsistent(defaults: seq<string>, ops: seq<Operation>)
    ensures Consistent(Run(NEW_STORE, defaults, ops))
  {
    if ops != [] {
      RunConsistent(defaults, ops[..|ops| - 1]);
      StepConsistent(Run(NEW_STORE, defaults, ops[..|ops| - 1]), defaults, ops[|ops| - 1]);
    }
  }

  /** The i-th operation of the run loads successfully. */
  predicate LoadsAt(defaults: seq<string>, ops: seq<Operation>, i: nat)
    requires i < |ops|
  {
    Replaces(Run(NEW_STORE, defaults, ops[..i]), defaults, ops[i])
  }

  /** The i-th operation is the last that loads successfully. */
  ghost predicate LastLoad(defaults: seq<string>, ops: seq<Operation>, i: nat) {
    i < |ops| && LoadsAt(defaults, ops, i) && forall j :: i < j < |ops| ==> !LoadsAt(defaults, ops, j)
  }

  /** s holds the hydration of what its providers hold in files, all of it readable and with test true. */
  ghost predicate HoldsFiles(s: Store, files: nat -> Content) {
    var contents := Read(|s.providers|, files);
    Loaded(contents) == Ok((s.tree, s.cached)) && AllReadable(contents) && LastTest(contents, Value(true))
  }

  /**
   * Over every run of Init, Load, callbacks and changing files: readiness means that some operation loaded
   * successfully, and that what is cached is the hydration of what every provider held at the last one that did.
   */
  lemma {:induction false} ReadyMeansLoaded(defaults: seq<string>, ops: seq<Operation>)
    ensures var s := Run(NEW_STORE, defaults, ops);
            s.ready ==> exists i: nat :: LastLoad(defaults, ops, i) && HoldsFiles(s, ops[i].files)
  {
    if ops != [] {
      var n := |ops| - 1;
      ReadyMeansLoaded(defaults, ops[..n]);
      SuccessReplacesAll(Run(NEW_STORE, defaults, ops[..n]), defaults, ops[n]);
      if LoadsAt(defaults, ops, n) {
        LayeredMeaning(Read(|Run(NEW_STORE, defaults, ops).providers|, ops[n].files));
        assert LastLoad(defaults, ops, n);
      } else if Run(NEW_STORE, defaults, ops).ready {
        var i: nat :| && LastLoad(defaults, ops[..n], i)
                      && HoldsFiles(Run(NEW_STORE, defaults, ops[..n]), ops[..n][i].files);
        StillLastLoad(defaults, ops, i);
      }
    }
  }

  /** An operation that does not load leaves the last load what it was. */
  lemma StillLastLoad(defaults: seq<string>, ops: seq<Operation>, i: nat)
    requires ops != [] && LastLoad(defaults, ops[..|ops| - 1], i) && !LoadsAt(defaults, ops, |ops| - 1)
    ensures LastLoad(defaults, ops, i)
  {
    var rest := ops[..|ops| - 1];
    SameLoad(defaults, ops, rest, i);
    forall j | i < j < |ops| ensures !LoadsAt(defaults, ops, j) {
      if j < |rest| {
        SameLoad(defaults, ops, rest, j);
      }
    }
  }

  lemma SameLoad(defaults: seq<string>, ops: seq<Operation>, rest: seq<Operation>, i: nat)
    requires i < |rest| && rest <= ops
    ensures LoadsAt(defaults, ops, i) == LoadsAt(defaults, rest, i)
  {
    assert rest[..i] == ops[..i];
  }

  /** The i-th operation is an Init that reported success. */
  predicate Initialises(defaults: seq<string>, ops: seq<Operation>, i: nat)
    requires i < |ops|
  {
    ops[i].Init? && Step(Run(NEW_STORE, defaults, ops[..i]), defaults, ops[i]).1.None?
  }

  lemma NotReadyStep(s: Store, defaults: seq<string>, op: Operation)
    requires Consistent(s)
    ensures Step(s, defaults, op).0.ready <==> s.ready || (op.Init? && Step(s, defaults, op).1.None?)
  {
    NothingNeverLoads();
    assert !s.ready && !op.Init? ==> Read(|s.providers|, op.files) == [];
  }

  /**
   * Settings are ready exactly when some Init has succeeded. So the watchers that a failed Init left behind
   * are harmless: none of their callbacks, and no explicit Load, makes settings ready before that.
   */
  lemma {:induction false} ReadyOnlyByInit(defaults: seq<string>, ops: seq<Operation>)
    ensures Run(NEW_STORE, defaults, ops).ready <==> exists i :: 0 <= i < |ops| && Initialises(defaults, ops, i)
  {
    if ops != [] {
      var n := |ops| - 1;
      var rest := ops[..n];
      ReadyOnlyByInit(defaults, rest);
      RunConsistent(defaults, rest);
      NotReadyStep(Run(NEW_STORE, defaults, rest), defaults, ops[n]);
      forall i | 0 <= i < n ensures Initialises(defaults, ops, i) <==> Initialises(defaults, rest, i) {
        assert rest[..i] == ops[..i];
      }
      assert Run(NEW_STORE, defaults, ops).ready <==>
             Run(NEW_STORE, defaults, rest).ready || Initialises(defaults, ops, n);
    }
  }

  /** The i-th operation is the first Init that succeeded. */
  ghost predicate FirstInit(defaults: seq<string>, ops: seq<Operation>, i: nat) {
    i < |ops| && Initialises(defaults, ops, i) && forall j :: 0 <= j < i ==> !Initialises(defaults, ops, j)
  }

  /** Over every run: the providers are those of the first Init that succeeded, and no later operation changes them. */
  lemma {:induction false} ProvidersFromInit(defaults: seq<string>, ops: seq<Operation>)
    ensures var s := Run(NEW_STORE, defaults, ops);
            s.ready ==> exists i: nat :: FirstInit(defaults, ops, i) && Chosen(ops[i].paths, defaults, s.providers)
  {
    if ops != [] {
      var n := |ops| - 1;
      var rest := ops[..n];
      var before := Run(NEW_STORE, defaults, rest);
      ProvidersFromInit(defaults, rest);
      RunConsistent(defaults, rest);
      SuccessReplacesAll(before, defaults, ops[n]);
      NotReadyStep(before, defaults, ops[n]);
      if before.ready {
        var i: nat :| FirstInit(defaults, rest, i) && Chosen(rest[i].paths, defaults, before.providers);
        forall j | 0 <= j <= i ensures Initialises(defaults, ops, j) <==> Initialises(defaults, rest, j) {
          assert rest[..j] == ops[..j];
        }
        assert FirstInit(defaults, ops, i);
      } else if Run(NEW_STORE, defaults, ops).ready {
        ReadyOnlyByInit(defaults, rest);
        forall j | 0 <= j < n ensures !Initialises(defaults, ops, j) {
          assert rest[..j] == ops[..j];
          assert !Initialises(defaults, rest, j);
        }
        assert FirstInit(defaults, ops, n);
      }
    }
  }

  /** Every snapshot of every run has test set and an image that is never empty. */
  lemma SnapshotsAreUsable(defaults: seq<string>, ops: seq<Operation>)
    ensures var s := Run(NEW_STORE, defaults, ops);
            s.ready ==> s.cached.test && s.cached.defaultImage != ""
  {
    var s := Run(NEW_STORE, defaults, ops);
    ReadyMeansLoaded(defaults, ops);
    if s.ready {
      var i: nat :| LastLoad(defaults, ops, i) && HoldsFiles(s, ops[i].files);
      LayeredMeaning(Read(|s.providers|, ops[i].files));
    }
  }

  // ---------- the state of the package ----------

  /** The merge, decode, default and validate steps of hydrateSettings. */
  method HydrateSettings(tree: Tree) returns (r: Result<Settings, Error>)
    ensures r == Hydrate(tree)
  {
    var cfg := NO_SETTINGS;
    match tree.execution {
      case Some(Fields(Some(Value(text)))) => cfg := cfg.(defaultImage := text);
      case Some(Fields(Some(Undecodable))) => return Err(DecodeError);
      case Some(NotMapping(false)) => return Err(DecodeError);
      case _ =>
    }
    match tree.test {
      case Some(Value(flag)) => cfg := cfg.(test := flag);
      case Some(Undecodable) => return Err(DecodeError);
      case _ =>
    }
    if cfg.defaultImage == "" {
      cfg := cfg.(defaultImage := DEFAULT_IMAGE);
    }
    if !cfg.test {
      return Err(ConfigError("SoyplaneSettings.Test", "required"));
    }
    return Ok(cfg);
  }

  class Package {
    var tree: Tree
    var providers: seq<string>
    var cached: Settings
    var settingsReady: bool
    var watchers: seq<string>
    /** Every operation so far. */
    ghost var history: seq<Operation>
    const defaultConfigPaths: seq<string>

    ghost function State(): Store
      reads this
    {
      Store(tree, providers, cached, settingsReady, watchers)
    }

    /** The package is what its operations have made of it. */
    ghost predicate Valid()
      reads this
    {
      State() == Run(NEW_STORE, defaultConfigPaths, history)
    }

    constructor (paths: seq<string>)
      ensures Valid() && history == [] && defaultConfigPaths == paths
    {
      tree, providers, cached, settingsReady, watchers := EMPTY, [], NO_SETTINGS, false, [];
      history := [];
      defaultConfigPaths := paths;
    }

    method LoadProviders(provs: seq<string>, files: nat -> Content) returns (r: Result<(Tree, Settings), Error>)
      ensures r == Loaded(Read(|provs|, files))
    {
      var merged := EMPTY;
      ghost var contents := Read(|provs|, files);
      for i := 0 to |provs|
        invariant MergeAll(contents[..i]) == Some(merged)
      {
        assert contents[..i + 1][..i] == contents[..i];
        match files(i) {
          case Unreadable =>
            LastDocumentWins(contents);
            return Err(LoadError);
          case Readable(document) =>
            merged := Merge(merged, document);
        }
      }
      assert contents[..|provs|] == contents;
      var settings := HydrateSettings(merged);
      match settings {
        case Err(e) => return Err(e);
        case Ok(cfg) => return Ok((merged, cfg));
      }
    }

    /** Asks each provider in turn to call back; a refusal leaves the earlier ones attached. */
    method AttachWatchers(paths: seq<string>, watch: nat -> Watch) returns (error: Option<Error>)
      modifies this`watchers
      ensures var n := AttachedUntil(|paths|, watch);
              && watchers == old(watchers) + Watched(paths, n, watch)
              && error == (if n < |paths| then Some(WatchError) else None)
              && Attaches(paths, n, watch, Watched(paths, n, watch))
    {
      WatchedExactly(paths, AttachedUntil(|paths|, watch), watch);
      for i := 0 to |paths|
        invariant watchers == old(watchers) + Watched(paths, i, watch)
        invariant forall j :: 0 <= j < i ==> !watch(j).Refused?
      {
        match watch(i) {
          case NotWatchable =>
          case Refused =>
            return Some(WatchError);
          case Attached =>
            watchers := watchers + [paths[i]];
        }
      }
      return None;
    }

    method Init(paths: seq<string>, watching: bool, files: nat -> Content, watch: nat -> Watch)
      returns (error: Option<Error>)
      requires Valid()
      modifies this
      ensures Valid() && history == old(history) + [Operation.Init(paths, watching, files, watch)]
      ensures (State(), error) == Step(old(State()), defaultConfigPaths, Operation.Init(paths, watching, files, watch))
      ensures if old(settingsReady) || error.Some? then providers == old(providers)
              else settingsReady && providers == if paths != [] then paths else defaultConfigPaths
    {
      Record(Operation.Init(paths, watching, files, watch));
      if settingsReady {
        return None;
      }
      var chosen := paths;
      if |chosen| == 0 {
        chosen := defaultConfigPaths;
      }
      var r := LoadProviders(chosen, files);
      match r {
        case Err(e) => return Some(e);
        case Ok((merged, cfg)) =>
          if watching {
            var failed := AttachWatchers(chosen, watch);
            if failed.Some? {
              return failed;
            }
          }
          providers := chosen;
          tree := merged;
          cached := cfg;
          settingsReady := true;
          return None;
      }
    }

    /** Writes the operation down; the rest of its method carries it out. */
    ghost method Record(op: Operation)
      requires Valid()
      modifies this`history
      ensures history == old(history) + [op]
      ensures Run(NEW_STORE, defaultConfigPaths, history) == Step(State(), defaultConfigPaths, op).0
    {
      RunLast(NEW_STORE, defaultConfigPaths, history, op);
      history := history + [op];
    }

    /** Reads all providers again; the caller holds the lock. */
    method ReloadLocked(files: nat -> Content) returns (error: Option<Error>)
      modifies this`tree, this`cached, this`settingsReady
      ensures (State(), error) == AfterLoad(old(State()), providers, Read(|providers|, files))
    {
      var r := LoadProviders(providers, files);
      match r {
        case Err(e) => return Some(e);
        case Ok((merged, cfg)) =>
          tree := merged;
          cached := cfg;
          settingsReady := true;
          return None;
      }
    }

    method Load(files: nat -> Content) returns (error: Option<Error>)
      requires Valid()
      modifies this
      ensures Valid() && history == old(history) + [Operation.Load(files)]
      ensures (State(), error) == Step(old(State()), defaultConfigPaths, Operation.Load(files))
      ensures providers == old(providers)
    {
      Record(Operation.Load(files));
      error := ReloadLocked(files);
    }

    /** The callback of a watcher: an error of the watch, or a change of the file. */
    method OnWatch(failed: bool, files: nat -> Content)
      requires Valid()
      modifies this
      ensures Valid() && history == old(history) + [Operation.Callback(failed, files)]
      ensures State() == Step(old(State()), defaultConfigPaths, Operation.Callback(failed, files)).0
      ensures providers == old(providers)
    {
      Record(Operation.Callback(failed, files));
      if failed {
        return;
      }
      var _ := ReloadLocked(files);
    }

    /** Snapshot, and with it Execution: the cached settings, or the error of settings not loaded. */
    method Snapshot() returns (r: Option<Settings>)
      requires Valid()
      ensures r == if settingsReady then Some(cached) else None
      ensures r.Some? ==> r.value.test && r.value.defaultImage != ""
    {
      SnapshotsAreUsable(defaultConfigPaths, history);
      if !settingsReady {
        return None;
      }
      return Some(cached);
    }
  }
}
