/** The body of the execution reconciler, as a run of the protocol. */
module ExecutionController {
  import opened Basics
  import opened Objects
  import opened Decisions
  import opened Selection
  import opened Protocol
  import opened Invariants
  import opened BaseRuns
  import opened ApiServer
  import SettingsStore

  /** The deletes of the prune loop, the first of which is the n-th step: each fails as its call does. */
  function Deletes(c: Cluster, key: Key, n: nat, count: nat): seq<Action> {
    seq(count, i requires 0 <= i => PruneJob(key, !c.fails(n + i)))
  }

  lemma OneDeleteMore(c: Cluster, key: Key, n: nat, count: nat)
    ensures Deletes(c, key, n, count + 1) == Deletes(c, key, n, count) + [PruneJob(key, !c.fails(n + count))]
  {
  }

  /** The loop of deletes: each Job once, in order; a delete that fails is passed over. */
  method PruneStale(c: Cluster, key: Key, ghost image: Option<string>, ghost x: Execution, ghost latest: Job,
      stale: seq<Job>)
    requires c.Working(key, image) && c.Polite(key) && c.At(key, ExecJob(x, latest, stale))
    modifies c
    ensures c.After(key, image, old(c.first), old(c.from), old(c.taken) + Deletes(c, key, old(c.calls), |stale|))
    ensures c.At(key, ExecJob(x, latest, []))
  {
    for i := 0 to |stale|
      invariant c.After(key, image, old(c.first), old(c.from), old(c.taken) + Deletes(c, key, old(c.calls), i))
      invariant c.At(key, ExecJob(x, latest, stale[i..]))
    {
      OneDeleteMore(c, key, old(c.calls), i);
      var _ := c.DeleteJob(key, image, x, latest, stale[i..], stale[i]);
    }
  }

  predicate IsList(key: Key, a: Action) {
    a.ListJobs? && a.key == key
  }

  /** How many Jobs of uid there are in the list besides the newest. */
  function StaleCount(jobs: seq<Job>, uid: Uid): nat {
    if Owned(jobs, uid) == [] then 0 else |Owned(jobs, uid)| - 1
  }

  /** The steps that find the execution's Job, from the n-th on: a List, and a delete of each Job but the newest. */
  function FindSteps(c: Cluster, key: Key, uid: Uid, n: nat, list: Action): seq<Action>
    requires list.ListJobs?
  {
    [list] + Deletes(c, key, n + 1, StaleCount(list.jobs, uid))
  }

  lemma ListThenDeletes(c: Cluster, key: Key, uid: Uid, n: nat, taken: seq<Action>, list: Action)
    requires list.ListJobs?
    ensures taken + [list] + Deletes(c, key, n + 1, StaleCount(list.jobs, uid)) ==
            taken + FindSteps(c, key, uid, n, list)
  {
    Associative(taken, [list], Deletes(c, key, n + 1, StaleCount(list.jobs, uid)));
  }

  /** The newest Job of the list, after a delete of each other Job of the execution was tried. */
  method CurrentJobOf(c: Cluster, key: Key, ghost image: Option<string>, x: Execution)
    returns (r: Reply<Option<Job>>, ghost list: Action)
    requires c.Working(key, image) && c.Polite(key) && c.At(key, ExecGot(x))
    modifies c
    ensures !r.NotFound?
    ensures r.Fault? <==> c.fails(old(c.calls))
    ensures if r.Fault? then c.At(key, Ended(Error))
            else
              && IsList(key, list) && r.value == Select(list.jobs, x.meta.uid)
              && c.At(key, if r.value.None? then ExecJobless(x) else ExecJob(x, r.value.value, []))
    ensures c.After(key, image, old(c.first), old(c.from),
                    old(c.taken) + if r.Fault? then [Fail(key)] else FindSteps(c, key, x.meta.uid, old(c.calls), list))
  {
    var items;
    ghost var view;
    items, view := c.ListJobs(key, x, image);
    if items.Fault? {
      r, list := Fault, Fail(key);
    } else {
      list := ListJobs(key, view, items.value);
      ghost var n, taken := c.calls, c.taken;
      r := KeepNewest(c, key, image, x, items.value);
      assert n == old(c.calls) + 1 && taken == old(c.taken) + [list];
      ListThenDeletes(c, key, x.meta.uid, old(c.calls), old(c.taken), list);
    }
  }

  /** The filter, the sort, and the deletes of all but the newest. */
  method KeepNewest(c: Cluster, key: Key, ghost image: Option<string>, x: Execution, items: seq<Job>)
    returns (r: Reply<Option<Job>>)
    requires c.Working(key, image) && c.Polite(key)
    requires var owned := Sort(Owned(items, x.meta.uid));
             c.At(key, if owned == [] then ExecJobless(x) else ExecJob(x, owned[0], owned[1..]))
    modifies c
    ensures r == Found(Select(items, x.meta.uid))
    ensures c.After(key, image, old(c.first), old(c.from),
                    old(c.taken) + Deletes(c, key, old(c.calls), StaleCount(items, x.meta.uid)))
    ensures c.At(key, if r.value.None? then ExecJobless(x) else ExecJob(x, r.value.value, []))
  {
    var owned := OwnedNewestFirst(items, x.meta.uid);
    if |owned| == 0 {
      return Found(None);
    }
    PruneStale(c, key, image, x, owned[0], owned[1..]);
    return Found(Some(owned[0]));
  }

  /** What the execution's Job is created from: module source, engine and the image they call for. */
  method ConstructJob(x: Execution, m: Owner, defaultImage: string) returns (d: JobDraft)
    requires m.spec.ModuleSpec?
    ensures JobDraftFor(x, m, defaultImage, d) && JobCalledFor(x, m, defaultImage, d.spec)
    ensures defaultImage != "" ==> d.spec.image != ""
  {
    var engineName := x.spec.engine.name;
    if engineName == "" {
      engineName := "tofu";
    }
    var workdir := m.spec.workdir;
    if workdir == "" {
      workdir := ".";
    }
    var image := defaultImage;
    if engineName == "terraform" {
      if x.spec.engine.version != "" {
        image := "hashicorp/terraform:" + x.spec.engine.version;
      }
    } else if engineName == "tofu" {
      if x.spec.engine.version != "" {
        image := "ghcr.io/opentofu/opentofu:" + x.spec.engine.version;
      }
    } else if x.spec.engine.version != "" {
      image := engineName + ":" + x.spec.engine.version;
    }
    d := JobDraft(
      x.meta.key.ns,
      ControllerRef(ExecutionKind, x.meta.key.name, x.meta.uid),
      JobSpec(m.spec.source, workdir, engineName, x.spec.action, image, m.meta.uid, m.meta.generation));
  }

  /** The phase and the summary the Job calls for, field by field, and whether any of them is new. */
  method DeriveStatus(shown: ExecutionStatus, job: Job) returns (status: ExecutionStatus, changed: bool)
    ensures status == NextStatus(shown, job) && Reports(shown, status, job)
    ensures changed <==> status != shown
  {
    var phase: Phase;
    if job.status.failed > 0 {
      phase := Phase.Failed;
    } else if job.status.succeeded > 0 {
      phase := Succeeded;
    } else if job.status.active > 0 || job.status.terminating || job.status.uncounted {
      phase := Running;
    } else {
      phase := Pending;
    }
    assert phase == PhaseOf(job.status);
    status, changed := shown, false;
    if status.jobName != job.meta.key.name {
      status := status.(jobName := job.meta.key.name);
      changed := true;
    }
    if job.status.startTime.Some? && (status.startedAt.None? || status.startedAt != job.status.startTime) {
      status := status.(startedAt := job.status.startTime);
      changed := true;
    }
    if job.status.completionTime.Some? && (status.finishedAt.None? || status.finishedAt != job.status.completionTime) {
      status := status.(finishedAt := job.status.completionTime);
      changed := true;
    }
    var summary := "Plan pending";
    match phase {
      case Succeeded => summary := "Plan completed successfully";
      case Failed => summary := "Plan failed";
      case Running => summary := "Plan is running";
      case _ =>
    }
    assert summary == SummaryOf(phase);
    if status.summary != summary {
      status := status.(summary := summary);
      changed := true;
    }
    if status.phase != phase {
      status := status.(phase := phase);
      changed := true;
    }
    assert status == NextStatus(shown, job);
    StatusExactly(shown, status, job);
  }

  /** The image a Job would get from the settings as they are; none while they are not loaded. */
  ghost function ImageOf(settings: SettingsStore.Package): Option<string>
    reads settings
  {
    if settings.settingsReady then Some(settings.cached.defaultImage) else None
  }

  /** The step that builds the Job, as the n-th: a create, with the image the settings give, or a failure. */
  ghost predicate BuildStep(c: Cluster, key: Key, image: Option<string>, n: nat, a: Action) {
    || a == Fail(key)
    || (!c.fails(n) && a.CreateJob? && a.key == key && image == Some(a.defaultImage) && a.defaultImage != "")
  }

  /**
   * Stores one new Job, built from the module that was read and the settings as they are: exactly when settings
   * are loaded and the server agrees. It has an image.
   */
  method BuildJob(c: Cluster, settings: SettingsStore.Package, ghost image: Option<string>, key: Key, x: Execution,
      mod: Owner)
    returns (outcome: Outcome, ghost a: Action)
    requires c.Working(key, image) && c.Polite(key) && c.At(key, ExecModule(x, mod))
    requires mod.spec.ModuleSpec? && settings.Valid() && image == ImageOf(settings)
    modifies c
    ensures BuildStep(c, key, image, old(c.calls), a)
    ensures c.After(key, image, old(c.first), old(c.from), old(c.taken) + [a])
    ensures var n := old(c.calls);
            var m := c.meanwhile(n, old(c.s));
            if settings.settingsReady && !c.fails(n) && c.GrantsJob(n, m, x.meta.key.ns, x.meta.uid) then
              var j := NewJob(x, mod, settings.cached.defaultImage, c.grants(n).0, c.grants(n).1, m.now);
              && outcome == RequeueNow && a.CreateJob? && c.s.jobs == m.jobs[j.meta.key := j] && j.spec.image != ""
              && JobCalledFor(x, mod, settings.cached.defaultImage, j.spec)
            else outcome == Error && a.Fail?
    ensures c.At(key, Ended(outcome))
  {
    var snapshot := settings.Snapshot();
    if snapshot.None? {
      c.GiveUp(key, x, mod);
      outcome, a := Error, Fail(key);
    } else {
      ghost var grant := c.grants(c.calls);
      var defaultImage := snapshot.value.defaultImage;
      var d := ConstructJob(x, mod, defaultImage);
      var created := c.CreateJob(key, x, mod, defaultImage, d);
      outcome := if created then RequeueNow else Error;
      a := if created then CreateJob(key, grant.0, grant.1, defaultImage) else Fail(key);
    }
  }

  /** The steps that make the first Job, from the n-th on: Get the module, then build. */
  ghost predicate FirstJobSteps(c: Cluster, key: Key, image: Option<string>, n: nat, actions: seq<Action>) {
    || actions == [Fail(key)]
    || (&& !c.fails(n) && |actions| == 2 && actions[0] == ReadModule(key)
        && BuildStep(c, key, image, n + 1, actions[1]))
  }

  /** Makes the first Job, and asks to come back at once; or fails. */
  method CreateFirstJob(c: Cluster, settings: SettingsStore.Package, ghost image: Option<string>, key: Key,
      x: Execution)
    returns (outcome: Outcome, ghost actions: seq<Action>)
    requires c.Working(key, image) && c.Polite(key) && c.At(key, ExecJobless(x)) && settings.Valid()
    requires image == ImageOf(settings)
    modifies c
    ensures FirstJobSteps(c, key, image, old(c.calls), actions)
    ensures outcome == if actions[|actions| - 1].CreateJob? then RequeueNow else Error
    ensures c.After(key, image, old(c.first), old(c.from), old(c.taken) + actions)
    ensures c.At(key, Ended(outcome))
  {
    ghost var n, before := c.calls, c.taken;
    var mod := c.ReadModule(key, x, x.spec.moduleRef, image);
    if !mod.Found? {
      outcome, actions := Error, [Fail(key)];
      return;
    }
    outcome, actions := ReadAndBuild(c, settings, image, key, x, mod.value, n, before);
  }

  /** The rest of making the first Job, after the module was read. */
  method ReadAndBuild(
      c: Cluster, settings: SettingsStore.Package, ghost image: Option<string>, key: Key, x: Execution, mod: Owner,
      ghost n: nat, ghost before: seq<Action>)
    returns (outcome: Outcome, ghost actions: seq<Action>)
    requires c.Working(key, image) && c.Polite(key) && c.At(key, ExecModule(x, mod)) && mod.spec.ModuleSpec?
    requires settings.Valid() && image == ImageOf(settings)
    requires c.calls == n + 1 && !c.fails(n) && c.taken == before + [ReadModule(key)]
    modifies c
    ensures FirstJobSteps(c, key, image, n, actions)
    ensures outcome == if actions[|actions| - 1].CreateJob? then RequeueNow else Error
    ensures c.After(key, image, old(c.first), old(c.from), before + actions)
    ensures c.At(key, Ended(outcome))
  {
    ghost var a;
    outcome, a := BuildJob(c, settings, image, key, x, mod);
    actions := [ReadModule(key), a];
    Associative(before, [ReadModule(key)], [a]);
  }

  /** The execution showing this status, in a new version. */
  function Showing(x: Execution, status: ExecutionStatus, version: nat): Execution {
    x.(status := status, meta := x.meta.(version := version))
  }

  /** The step that shows the Job, as the n-th: it fails exactly when the call that a new status takes fails. */
  ghost predicate ShowStep(c: Cluster, key: Key, shown: ExecutionStatus, job: Job, n: nat, a: Action) {
    a == if c.fails(n) && !Reports(shown, shown, job) then Fail(key) else UpdateExecution(key)
  }

  /** What the reconcile of an execution with this Job returns: it comes back until the Job has finished. */
  function OutcomeFor(job: Job): Outcome {
    if job.status.failed > 0 || job.status.succeeded > 0 then Done else RequeueLater
  }

  /**
   * Calls the server exactly when the status the Job calls for differs. It is stored if nobody has written the
   * execution since it was read; an unfinished phase then asks for a later requeue, a refused write for another try.
   */
  method ShowJob(c: Cluster, key: Key, ghost image: Option<string>, x: Execution, job: Job)
    returns (outcome: Outcome, ghost a: Action)
    requires c.Working(key, image) && c.Polite(key) && c.At(key, ExecJob(x, job, [])) && x.meta.key == key
    modifies c
    ensures ShowStep(c, key, x.status, job, old(c.calls), a)
    ensures c.After(key, image, old(c.first), old(c.from), old(c.taken) + [a])
    ensures var m := c.meanwhile(old(c.calls), old(c.s));
            var same := Reports(x.status, x.status, job);
            if !same && !c.fails(old(c.calls)) && ExecCurrent(m, x) then
              && outcome == OutcomeFor(job) && key in c.s.executions
              && var status := c.s.executions[key].status;
                 && Reports(x.status, status, job)
                 && c.s.executions == m.executions[key := Showing(x, status, m.log.version)]
            else outcome == (if same then OutcomeFor(job) else Error) && c.s.executions == m.executions
    ensures c.At(key, Ended(outcome))
  {
    StatusExactly(x.status, x.status, job);
    ghost var failing := c.fails(c.calls);
    var status, changed := DeriveStatus(x.status, job);
    if changed {
      var applied := c.UpdateExecutionStatus(key, x, job, status, image);
      a := if failing then Fail(key) else UpdateExecution(key);
      if !applied {
        return Error, a;
      }
    } else {
      c.Unchanged(key, x, job, image);
      a := UpdateExecution(key);
    }
    if status.phase == Running || status.phase == Pending {
      return RequeueLater, a;
    }
    return Done, a;
  }

  lemma ExecutionInFlight(s: State, key: Key, freshReads: bool)
    requires Arrived(s, freshReads) && key in s.flights && s.flights[key].ExecGot?
    ensures s.flights[key].exec.meta.key == key
  {
    ArrivedExactly(s, freshReads);
    ReachableBase(s, freshReads);
    assert FlightOk(s.log, s.owners, s.executions, key, s.flights[key]);
  }

  /** The steps after the Job was looked for, from the n-th on: the first Job if there is none, or else its status. */
  ghost predicate ThenSteps(
      c: Cluster, key: Key, image: Option<string>, x: Execution, job: Option<Job>, n: nat, actions: seq<Action>,
      outcome: Outcome)
  {
    match job
    case None =>
      && FirstJobSteps(c, key, image, n, actions)
      && outcome == if actions[|actions| - 1].CreateJob? then RequeueNow else Error
    case Some(j) =>
      && |actions| == 1 && ShowStep(c, key, x.status, j, n, actions[0])
      && (outcome == Error || (outcome == OutcomeFor(j) && !actions[0].Fail?))
  }

  /** The steps after the execution was read, from the n-th on: find its Job, and do what it calls for. */
  ghost predicate JobSteps(
      c: Cluster, key: Key, image: Option<string>, x: Execution, n: nat, actions: seq<Action>, outcome: Outcome)
  {
    if c.fails(n) then actions == [Fail(key)] && outcome == Error
    else
      && actions != [] && IsList(key, actions[0])
      && var find := FindSteps(c, key, x.meta.uid, n, actions[0]);
         && find <= actions
         && ThenSteps(c, key, image, x, Select(actions[0].jobs, x.meta.uid), n + |find|, actions[|find|..], outcome)
  }

  method FindAndShow(c: Cluster, settings: SettingsStore.Package, ghost image: Option<string>, key: Key, x: Execution)
    returns (outcome: Outcome, ghost actions: seq<Action>)
    requires c.Working(key, image) && c.Polite(key) && c.At(key, ExecGot(x))
    requires settings.Valid() && image == ImageOf(settings)
    modifies c
    ensures JobSteps(c, key, image, x, old(c.calls), actions, outcome)
    ensures c.After(key, image, old(c.first), old(c.from), old(c.taken) + actions)
    ensures c.At(key, Ended(outcome))
  {
    ExecutionInFlight(c.s, key, c.freshReads);
    var job;
    ghost var list;
    job, list := CurrentJobOf(c, key, image, x);
    if job.Fault? {
      outcome, actions := Error, [Fail(key)];
      return;
    }
    ghost var m, rest := c.calls, [];
    outcome, rest := Then(c, settings, image, key, x, job.value);
    actions := FindSteps(c, key, x.meta.uid, old(c.calls), list) + rest;
    Associative(old(c.taken), FindSteps(c, key, x.meta.uid, old(c.calls), list), rest);
    FindThen(c, key, image, x, old(c.calls), list, job.value, m, rest, outcome);
  }

  lemma FindThen(
      c: Cluster, key: Key, image: Option<string>, x: Execution, n: nat, list: Action, job: Option<Job>,
      m: nat, rest: seq<Action>, outcome: Outcome)
    requires !c.fails(n) && IsList(key, list) && m == n + |FindSteps(c, key, x.meta.uid, n, list)|
    requires job == Select(list.jobs, x.meta.uid) && ThenSteps(c, key, image, x, job, m, rest, outcome)
    ensures JobSteps(c, key, image, x, n, FindSteps(c, key, x.meta.uid, n, list) + rest, outcome)
  {
    var find := FindSteps(c, key, x.meta.uid, n, list);
    assert (find + rest)[|find|..] == rest && (find + rest)[0] == list;
  }

  method Then(c: Cluster, settings: SettingsStore.Package, ghost image: Option<string>, key: Key, x: Execution,
      job: Option<Job>)
    returns (outcome: Outcome, ghost actions: seq<Action>)
    requires c.Working(key, image) && c.Polite(key) && settings.Valid() && image == ImageOf(settings)
    requires x.meta.key == key
    requires c.At(key, if job.None? then ExecJobless(x) else ExecJob(x, job.value, []))
    modifies c
    ensures ThenSteps(c, key, image, x, job, old(c.calls), actions, outcome)
    ensures c.After(key, image, old(c.first), old(c.from), old(c.taken) + actions)
    ensures c.At(key, Ended(outcome))
  {
    if job.None? {
      outcome, actions := CreateFirstJob(c, settings, image, key, x);
    } else {
      ghost var a;
      outcome, a := ShowJob(c, key, image, x, job.value);
      actions := [a];
    }
  }

  /** The steps of one reconcile of the execution, from the n-th on, and its outcome. One that is gone is no error. */
  ghost predicate ExecutionSteps(
      c: Cluster, key: Key, image: Option<string>, x: Option<Execution>, n: nat, actions: seq<Action>,
      outcome: Outcome)
  {
    if c.fails(n) then actions == [Fail(key)] && outcome == Error
    else if x.None? then actions == [GetExecution(key)] && outcome == Done
    else
      && actions != [] && actions[0] == GetExecution(key)
      && JobSteps(c, key, image, x.value, n + 1, actions[1..], outcome)
  }

  /**
   * One reconcile of an execution, with anyone acting before each of its steps. The steps it takes are exactly the
   * given ones: it lists, tries a delete of each Job but the newest once, makes a first Job exactly when the list
   * has none, with the image the settings give, and otherwise shows the newest Job; it fails only where it must.
   * They end the reconcile with the outcome returned.
   */
  method Reconcile(c: Cluster, settings: SettingsStore.Package, key: Key)
    returns (outcome: Outcome, ghost x: Option<Execution>, ghost actions: seq<Action>)
    requires c.Valid() && c.Polite(key) && key.kind == ExecutionKind && c.At(key, Popped) && settings.Valid()
    modifies c
    ensures var m := c.meanwhile(old(c.calls), old(c.s));
            x == if key in m.executions then Some(m.executions[key]) else None
    ensures ExecutionSteps(c, key, ImageOf(settings), x, old(c.calls), actions, outcome)
    ensures c.Played(key, ImageOf(settings), actions)
    ensures c.At(key, Ended(outcome))
  {
    c.Begin(key, ImageOf(settings));
    outcome, x, actions := Steps(c, settings, ImageOf(settings), key);
    assert c.taken == actions;
  }

  method Steps(c: Cluster, settings: SettingsStore.Package, ghost image: Option<string>, key: Key)
    returns (outcome: Outcome, ghost x: Option<Execution>, ghost actions: seq<Action>)
    requires c.Working(key, image) && c.Polite(key) && settings.Valid() && image == ImageOf(settings)
    requires key.kind == ExecutionKind && c.At(key, Popped)
    modifies c
    ensures var m := c.meanwhile(old(c.calls), old(c.s));
            x == if key in m.executions then Some(m.executions[key]) else None
    ensures ExecutionSteps(c, key, image, x, old(c.calls), actions, outcome)
    ensures c.After(key, image, old(c.first), old(c.from), old(c.taken) + actions)
    ensures c.At(key, Ended(outcome))
  {
    ghost var n, before, executions := c.calls, c.taken, c.meanwhile(c.calls, c.s).executions;
    x := if key in executions then Some(executions[key]) else None;
    var got := c.GetExecution(key, image);
    if got.Found? {
      outcome, actions := GoOn(c, settings, image, key, got.value, n, before);
    } else {
      outcome := if got.NotFound? then Done else Error;
      actions := [if got.NotFound? then GetExecution(key) else Fail(key)];
    }
  }

  /** The rest of a reconcile whose last step got the execution. */
  method GoOn(
      c: Cluster, settings: SettingsStore.Package, ghost image: Option<string>, key: Key, x: Execution,
      ghost n: nat, ghost before: seq<Action>)
    returns (outcome: Outcome, ghost actions: seq<Action>)
    requires c.Working(key, image) && c.Polite(key) && settings.Valid() && image == ImageOf(settings)
    requires c.At(key, ExecGot(x)) && c.calls == n + 1 && !c.fails(n) && c.taken == before + [GetExecution(key)]
    modifies c
    ensures ExecutionSteps(c, key, image, Some(x), n, actions, outcome)
    ensures c.After(key, image, old(c.first), old(c.from), before + actions)
    ensures c.At(key, Ended(outcome))
  {
    ghost var more;
    outcome, more := FindAndShow(c, settings, image, key, x);
    actions := [GetExecution(key)] + more;
    GetThen(c, key, image, x, n, before, more, outcome);
  }

  lemma GetThen(
      c: Cluster, key: Key, image: Option<string>, x: Execution, n: nat, taken: seq<Action>, rest: seq<Action>,
      outcome: Outcome)
    requires !c.fails(n) && JobSteps(c, key, image, x, n + 1, rest, outcome)
    ensures ExecutionSteps(c, key, image, Some(x), n, [GetExecution(key)] + rest, outcome)
    ensures taken + [GetExecution(key)] + rest == taken + ([GetExecution(key)] + rest)
  {
    Associative(taken, [GetExecution(key)], rest);
    assert ([GetExecution(key)] + rest)[1..] == rest;
  }
}
