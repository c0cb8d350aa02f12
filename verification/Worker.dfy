/** The workers that take keys from the queue, reconcile them, and hand the outcome back. */
module Worker {
  import opened Basics
  import opened Objects
  import opened Decisions
  import opened Selection
  import opened Protocol
  import opened Invariants
  import opened ApiServer
  import SettingsStore
  import OwnerController
  import ExecutionController

  // ---------- one reconcile ----------

  /** There is a reconciler for keys of this kind. */
  predicate Reconciled(key: Key) {
    IsOwnerKind(key.kind) || key.kind == ExecutionKind
  }

  /** The image a reconcile of key may use: the one the settings give, for executions. */
  function ImageFor(image: Option<string>, key: Key): Option<string> {
    if key.kind == ExecutionKind then image else None
  }

  /** What the reconciler of key does, from its n-th step on, in the state it then meets, and returns. */
  ghost predicate StepsOf(
      c: Cluster, image: Option<string>, key: Key, s: State, n: nat, actions: seq<Action>,
      outcome: Outcome)
  {
    var m := c.meanwhile(n, s);
    if key.kind == ExecutionKind then
      var x := if key in m.executions then Some(m.executions[key]) else None;
      ExecutionController.ExecutionSteps(c, key, image, x, n, actions, outcome)
    else
      var o := if key in m.owners then Some(m.owners[key]) else None;
      OwnerController.OwnerSteps(c, key, o, n, actions, outcome)
  }

  /** The steps of the reconciler of key, played from s with everyone else's between them, leave t; folded. */
  ghost predicate Reconciles(
      c: Cluster, image: Option<string>, key: Key, s: State, n: nat, actions: seq<Action>, outcome: Outcome,
      t: State)
  {
    && StepsOf(c, image, key, s, n, actions, outcome)
    && Fold(c.Record(key, ImageFor(image, key), s, n, actions), t) == Held
  }

  lemma ReconcilesFollows(
      c: Cluster, image: Option<string>, key: Key, s: State, n: nat, actions: seq<Action>, outcome: Outcome,
      t: State)
    requires Arrived(s, c.freshReads) && c.Polite(key) && key in s.flights
    requires Reconciles(c, image, key, s, n, actions, outcome, t)
    ensures Follows(s, t, c.freshReads) && c.Plays(key, ImageFor(image, key), s, n, actions, t)
  {
    FoldExactly(c.Record(key, ImageFor(image, key), s, n, actions), t);
    c.PlaysIsRun(key, ImageFor(image, key), s, n, actions, t);
  }

  /** One reconcile of key, whoever's it is: exactly the steps of its reconciler, which end with the outcome. */
  method Reconcile(c: Cluster, settings: SettingsStore.Package, key: Key)
    returns (outcome: Outcome, ghost actions: seq<Action>)
    requires c.Valid() && c.Polite(key) && settings.Valid() && Reconciled(key) && c.At(key, Popped)
    modifies c
    ensures c.Valid() && Follows(old(c.s), c.s, c.freshReads) && c.At(key, Ended(outcome))
    ensures Reconciles(c, ExecutionController.ImageOf(settings), key, old(c.s), old(c.calls), actions, outcome, c.s)
    ensures c.calls == old(c.calls) + |actions|
  {
    ghost var image, s, n := ExecutionController.ImageOf(settings), c.s, c.calls;
    if key.kind == ExecutionKind {
      ghost var x;
      outcome, x, actions := ExecutionController.Reconcile(c, settings, key);
    } else {
      ghost var o;
      outcome, o, actions := OwnerController.Reconcile(c, key);
    }
    ReconcilesFollows(c, image, key, s, n, actions, outcome, c.s);
  }

  // ---------- one turn ----------

  function Taken(s: State, key: Key): State {
    SetFlight(s, key, Popped).(dirty := s.dirty - {key})
  }

  /**
   * A turn for key from s, its first step being the n-th: popped, reconciled by exactly these steps to end, and
   * finished with the outcome, which leaves t.
   */
  ghost predicate TurnFor(
      c: Cluster, image: Option<string>, key: Key, s: State, n: nat, actions: seq<Action>, end: State, outcome: Outcome,
      t: State)
  {
    && Reconciles(c, image, key, Taken(s, key), n, actions, outcome, end)
    && key in end.flights && end.flights[key] == Ended(outcome)
    && t == end.(
         flights := end.flights - {key},
         dirty := if outcome.Error? || outcome.RequeueNow? then end.dirty + {key} else end.dirty)
  }

  /**
   * One turn of a worker: pop, reconcile, finish. Whatever everyone else does meanwhile, it is a run of the
   * protocol; the key is in flight no longer, and is queued again after an error or a wish to come back at once.
   * For an owner without executions it stores the new execution, as soon as no call fails; and for an execution
   * without Jobs, its Job.
   */
  method Work(c: Cluster, settings: SettingsStore.Package, key: Key)
    returns (outcome: Outcome, ghost actions: seq<Action>, ghost end: State)
    requires c.Valid() && c.Polite(key) && settings.Valid() && Reconciled(key)
    requires key in c.s.dirty && key !in c.s.flights
    modifies c
    ensures c.Valid() && Follows(old(c.s), c.s, c.freshReads)
    ensures key !in c.s.flights && (outcome.Error? || outcome.RequeueNow? ==> key in c.s.dirty)
    ensures var image := ExecutionController.ImageOf(settings);
            && TurnFor(c, image, key, old(c.s), old(c.calls), actions, end, outcome, c.s)
            && c.calls == old(c.calls) + |actions|
            && StoresFirstRun(c, key, Taken(old(c.s), key), old(c.calls), c.s)
            && StoresFirstJob(c, image, key, Taken(old(c.s), key), old(c.calls), c.s)
  {
    ghost var s0, n := c.s, c.calls;
    c.Pop(key);
    ghost var s1 := c.s;
    outcome, actions := Reconcile(c, settings, key);
    FollowsThrough(s0, s1, c.s, c.freshReads);
    end := c.s;
    c.Finish(key, outcome);
    FollowsThrough(s0, end, c.s, c.freshReads);
    ghost var image := ExecutionController.ImageOf(settings);
    FirstRunStored(c, image, key, s1, n, actions, outcome, end);
    FirstJobStored(c, image, key, s1, n, actions, outcome, end);
  }

  // ---------- what a turn brings about ----------

  lemma ChainLast<S(!new), A(!new)>(step: (nat, S, A, S) -> bool, s: S, n: nat, steps: seq<A>, t: S) returns (u: S)
    requires Chain(step, s, n, steps, t) && steps != []
    ensures Chain(step, s, n, steps[..|steps| - 1], u) && step(n + |steps| - 1, u, steps[|steps| - 1], t)
  {
    var k := |steps| - 1;
    u :| Chain(step, s, n, steps[..k], u) && step(n + k, u, steps[k], t);
  }

  lemma ChainTwo<S(!new), A(!new)>(step: (nat, S, A, S) -> bool, s: S, n: nat, steps: seq<A>, t: S) returns (u: S)
    requires Chain(step, s, n, steps, t) && |steps| == 2
    ensures step(n, s, steps[0], u) && step(n + 1, u, steps[1], t)
  {
    u := ChainLast(step, s, n, steps, t);
    var start := ChainLast(step, s, n, steps[..1], u);
    assert steps[..1][..0] == [];
  }

  lemma ChainThree<S(!new), A(!new)>(step: (nat, S, A, S) -> bool, s: S, n: nat, steps: seq<A>, t: S)
    returns (u: S, v: S)
    requires Chain(step, s, n, steps, t) && |steps| == 3
    ensures step(n, s, steps[0], u) && step(n + 1, u, steps[1], v) && step(n + 2, v, steps[2], t)
  {
    v := ChainLast(step, s, n, steps, t);
    u := ChainTwo(step, s, n, steps[..2], v);
  }

  lemma ChainFour<S(!new), A(!new)>(step: (nat, S, A, S) -> bool, s: S, n: nat, steps: seq<A>, t: S)
    returns (u: S, v: S, w: S)
    requires Chain(step, s, n, steps, t) && |steps| == 4
    ensures step(n, s, steps[0], u) && step(n + 1, u, steps[1], v)
    ensures step(n + 2, v, steps[2], w) && step(n + 3, w, steps[3], t)
  {
    w := ChainLast(step, s, n, steps, t);
    u, v := ChainThree(step, s, n, steps[..3], w);
  }

  /** A step of the reconcile of key finds its flight where it left it. */
  lemma StepFinds(c: Cluster, key: Key, image: Option<string>, n: nat, s: State, a: Action, t: State)
    requires Arrived(s, c.freshReads) && c.Polite(key) && key in s.flights && c.Step(key, image)(n, s, a, t)
    ensures FlightAt(c.meanwhile(n, s).flights, key) == Some(s.flights[key])
    ensures Arrived(t, c.freshReads) && key in t.flights
  {
    FoldExactly(c.Politeness(), key);
    c.FitsLeads(key, image, s, n, a);
  }

  /** What the List of the owner's reconcile meets. */
  ghost function Listing(c: Cluster, key: Key, s: State, n: nat): State
    requires key in c.meanwhile(n, s).owners
  {
    var m := c.meanwhile(n, s);
    c.meanwhile(n + 1, SetFlight(m, key, OwnerGot(m.owners[key])))
  }

  /** What its Create meets, when the List found nothing. */
  ghost function Creating(c: Cluster, key: Key, s: State, n: nat): State
    requires key in c.meanwhile(n, s).owners
  {
    var o := c.meanwhile(n, s).owners[key];
    c.meanwhile(n + 2, SetFlight(Listing(c, key, s, n), key, OwnerListed(o, None)))
  }

  predicate Childless(executions: Executions, uid: Uid) {
    forall k :: k in executions ==> !ControlledBy(executions[k].meta, uid)
  }

  /** From the n-th step on no call fails, the owner is there but no execution of it, and the server grants a name. */
  ghost predicate RunIsDue(c: Cluster, key: Key, s: State, n: nat) {
    && IsOwnerKind(key.kind) && !c.fails(n) && !c.fails(n + 1) && !c.fails(n + 2)
    && key in c.meanwhile(n, s).owners
    && var meta := c.meanwhile(n, s).owners[key].meta;
       && Childless(Listing(c, key, s, n).executions, meta.uid)
       && c.GrantsExecution(n + 2, Creating(c, key, s, n), meta.key.ns, meta.uid)
  }

  /** If a run is due, t is what the Create met, with the owner's new execution stored. */
  ghost predicate StoresFirstRun(c: Cluster, key: Key, s: State, n: nat, t: State) {
    RunIsDue(c, key, s, n) ==>
      var m, grant := Creating(c, key, s, n), c.grants(n + 2);
      var e := NewExecution(c.meanwhile(n, s).owners[key], grant.0, grant.1, m.now, m.log.version);
      t.executions == m.executions[e.meta.key := e]
  }

  lemma NoneSelected(executions: Executions, ns: string, items: seq<Execution>, uid: Uid)
    requires IsListing(executions, ns, items) && Childless(executions, uid)
    ensures Select(items, uid) == None
  {
    NoneOwned(items, uid);
  }

  lemma GetLeaves(c: Cluster, key: Key, n: nat, s: State, u: State)
    requires c.Step(key, None)(n, s, GetOwner(key), u) && key in c.meanwhile(n, s).owners
    ensures u == SetFlight(c.meanwhile(n, s), key, OwnerGot(c.meanwhile(n, s).owners[key]))
  {
  }

  lemma ListLeaves(c: Cluster, key: Key, n: nat, u: State, o: Owner, a: Action, v: State)
    requires c.Step(key, None)(n, u, a, v) && a.ListExecutions? && a.key == key
    requires FlightAt(c.meanwhile(n, u).flights, key) == Some(OwnerGot(o))
    requires Childless(c.meanwhile(n, u).executions, o.meta.uid)
    ensures Select(a.executions, o.meta.uid) == None
    ensures v == SetFlight(c.meanwhile(n, u), key, OwnerListed(o, None))
  {
    NoneSelected(c.meanwhile(n, u).executions, o.meta.key.ns, a.executions, o.meta.uid);
  }

  lemma CreateLeaves(c: Cluster, key: Key, n: nat, v: State, o: Owner, a: Action, t: State)
    requires c.Step(key, None)(n, v, a, t) && OwnerController.Acts(o, None, key, a) && !c.fails(n)
    requires FlightAt(c.meanwhile(n, v).flights, key) == Some(OwnerListed(o, None))
    requires c.GrantsExecution(n, c.meanwhile(n, v), o.meta.key.ns, o.meta.uid)
    ensures var m := c.meanwhile(n, v);
            var e := NewExecution(o, c.grants(n).0, c.grants(n).1, m.now, m.log.version);
            t.executions == m.executions[e.meta.key := e]
  {
    var m := c.meanwhile(n, v);
    c.GrantedExecutionFits(key, n, m, o, None);
    assert a == CreateExecution(key, c.grants(n).0, c.grants(n).1);
    assert t == AfterCreateExecution(m, key, c.grants(n).0, c.grants(n).1);
  }

  lemma FirstRunStored(
      c: Cluster, image: Option<string>, key: Key, s: State, n: nat, actions: seq<Action>, outcome: Outcome,
      t: State)
    requires Arrived(s, c.freshReads) && c.Polite(key) && key in s.flights
    requires Reconciles(c, image, key, s, n, actions, outcome, t)
    ensures StoresFirstRun(c, key, s, n, t)
  {
    if RunIsDue(c, key, s, n) {
      ReconcilesFollows(c, image, key, s, n, actions, outcome, t);
      RunSteps(c, image, key, s, n, actions, outcome);
      var u, v := ChainThree(c.Step(key, None), s, n, actions, t);
      RunPlayed(c, key, s, n, actions, u, v, t);
    }
  }

  lemma RunSteps(
      c: Cluster, image: Option<string>, key: Key, s: State, n: nat, actions: seq<Action>, outcome: Outcome)
    requires RunIsDue(c, key, s, n) && StepsOf(c, image, key, s, n, actions, outcome)
    ensures |actions| == 3 && actions[0] == GetOwner(key) && actions[1].ListExecutions? && actions[1].key == key
    ensures var o := c.meanwhile(n, s).owners[key];
            OwnerController.Acts(o, Select(actions[1].executions, o.meta.uid), key, actions[2])
  {
    assert actions[1..][0] == actions[1] && actions[1..][1] == actions[2];
  }

  lemma RunPlayed(c: Cluster, key: Key, s: State, n: nat, actions: seq<Action>, u: State, v: State, t: State)
    requires Arrived(s, c.freshReads) && c.Polite(key) && key in s.flights && RunIsDue(c, key, s, n)
    requires |actions| == 3 && actions[0] == GetOwner(key) && actions[1].ListExecutions? && actions[1].key == key
    requires var o := c.meanwhile(n, s).owners[key];
             OwnerController.Acts(o, Select(actions[1].executions, o.meta.uid), key, actions[2])
    requires c.Step(key, None)(n, s, actions[0], u) && c.Step(key, None)(n + 1, u, actions[1], v)
    requires c.Step(key, None)(n + 2, v, actions[2], t)
    ensures StoresFirstRun(c, key, s, n, t)
  {
    var o := c.meanwhile(n, s).owners[key];
    StepFinds(c, key, None, n, s, actions[0], u);
    GetLeaves(c, key, n, s, u);
    StepFinds(c, key, None, n + 1, u, actions[1], v);
    ListLeaves(c, key, n + 1, u, o, actions[1], v);
    StepFinds(c, key, None, n + 2, v, actions[2], t);
    CreateLeaves(c, key, n + 2, v, o, actions[2], t);
  }

  /** For an owner nobody else touches: it is stored and has no execution, and the server's uid and name are new. */
  lemma AloneRunIsDue(c: Cluster, key: Key, s: State, n: nat)
    requires (forall k: nat, u :: c.meanwhile(k, u) == u) && (forall k: nat :: !c.fails(k))
    requires IsOwnerKind(key.kind) && key in s.owners && Childless(s.executions, s.owners[key].meta.uid)
    requires c.grants(n + 2).0 !in s.log.home
    requires !Used(s.log.home, Key(ExecutionKind, s.owners[key].meta.key.ns, c.grants(n + 2).1))
    ensures RunIsDue(c, key, s, n)
  {
  }

  // ---------- the first Job ----------

  /** What the List of the execution's reconcile meets. */
  ghost function JobListing(c: Cluster, key: Key, s: State, n: nat): State
    requires key in c.meanwhile(n, s).executions
  {
    var m := c.meanwhile(n, s);
    c.meanwhile(n + 1, SetFlight(m, key, ExecGot(m.executions[key])))
  }

  /** What its Get of the module meets, when the List found nothing. */
  ghost function ModuleReading(c: Cluster, key: Key, s: State, n: nat): State
    requires key in c.meanwhile(n, s).executions
  {
    var x := c.meanwhile(n, s).executions[key];
    c.meanwhile(n + 2, SetFlight(JobListing(c, key, s, n), key, ExecJobless(x)))
  }

  /** What its Create meets. */
  ghost function JobCreating(c: Cluster, key: Key, s: State, n: nat): State
    requires key in c.meanwhile(n, s).executions
    requires ModuleKeyOf(c.meanwhile(n, s).executions[key].spec) in ModuleReading(c, key, s, n).owners
  {
    var x, m := c.meanwhile(n, s).executions[key], ModuleReading(c, key, s, n);
    c.meanwhile(n + 3, SetFlight(m, key, ExecModule(x, m.owners[ModuleKeyOf(x.spec)])))
  }

  /** Whatever a List of Jobs may return in m, it shows no Job of uid. */
  ghost predicate NoJobListed(c: Cluster, m: State, uid: Uid) {
    forall view: Jobs :: view in m.log.views && (c.freshReads ==> view == m.jobs) ==> Jobless(view, uid)
  }

  /**
   * From the n-th step on no call fails, the execution is there but no Job of it, its module is there, settings are
   * ready, and the server grants a name.
   */
  ghost predicate JobIsDue(c: Cluster, image: Option<string>, key: Key, s: State, n: nat) {
    && key.kind == ExecutionKind && !c.fails(n) && !c.fails(n + 1) && !c.fails(n + 2) && !c.fails(n + 3)
    && key in c.meanwhile(n, s).executions
    && var x := c.meanwhile(n, s).executions[key];
       && NoJobListed(c, JobListing(c, key, s, n), x.meta.uid)
       && ModuleKeyOf(x.spec) in ModuleReading(c, key, s, n).owners && image.Some?
       && ModuleReading(c, key, s, n).owners[ModuleKeyOf(x.spec)].spec.ModuleSpec?
       && c.GrantsJob(n + 3, JobCreating(c, key, s, n), x.meta.key.ns, x.meta.uid)
  }

  /** If a Job is due, t is what the Create met, with the execution's Job stored. */
  ghost predicate StoresFirstJob(c: Cluster, image: Option<string>, key: Key, s: State, n: nat, t: State) {
    JobIsDue(c, image, key, s, n) ==>
      var x, m, grant := c.meanwhile(n, s).executions[key], JobCreating(c, key, s, n), c.grants(n + 3);
      var mod := ModuleReading(c, key, s, n).owners[ModuleKeyOf(x.spec)];
      var j := NewJob(x, mod, image.value, grant.0, grant.1, m.now);
      t.jobs == m.jobs[j.meta.key := j]
  }

  lemma NoJobSelected(view: Jobs, ns: string, items: seq<Job>, uid: Uid)
    requires IsListing(view, ns, items) && Jobless(view, uid)
    ensures Owned(items, uid) == [] && Select(items, uid) == None
  {
    NoneOwned(items, uid);
  }

  lemma GetRunLeaves(c: Cluster, key: Key, image: Option<string>, n: nat, s: State, u: State)
    requires c.Step(key, image)(n, s, GetExecution(key), u) && key in c.meanwhile(n, s).executions
    ensures u == SetFlight(c.meanwhile(n, s), key, ExecGot(c.meanwhile(n, s).executions[key]))
  {
  }

  lemma ListJobsLeaves(
      c: Cluster, key: Key, image: Option<string>, n: nat, u: State, x: Execution, a: Action, v: State)
    requires c.Step(key, image)(n, u, a, v) && a.ListJobs? && a.key == key
    requires FlightAt(c.meanwhile(n, u).flights, key) == Some(ExecGot(x))
    requires NoJobListed(c, c.meanwhile(n, u), x.meta.uid)
    ensures Owned(a.jobs, x.meta.uid) == [] && Select(a.jobs, x.meta.uid) == None
    ensures v == SetFlight(c.meanwhile(n, u), key, ExecJobless(x))
  {
    NoJobSelected(a.view, x.meta.key.ns, a.jobs, x.meta.uid);
  }

  lemma ReadLeaves(c: Cluster, key: Key, image: Option<string>, n: nat, v: State, x: Execution, w: State)
    requires c.Step(key, image)(n, v, ReadModule(key), w)
    requires FlightAt(c.meanwhile(n, v).flights, key) == Some(ExecJobless(x))
    ensures var m := c.meanwhile(n, v);
            ModuleKeyOf(x.spec) in m.owners && w == SetFlight(m, key, ExecModule(x, m.owners[ModuleKeyOf(x.spec)]))
  {
  }

  lemma BuildLeaves(
      c: Cluster, key: Key, image: Option<string>, n: nat, w: State, x: Execution, mod: Owner, a: Action, t: State)
    requires c.Step(key, image)(n, w, a, t) && ExecutionController.BuildStep(c, key, image, n, a) && !c.fails(n)
    requires FlightAt(c.meanwhile(n, w).flights, key) == Some(ExecModule(x, mod)) && mod.spec.ModuleSpec?
    requires image.Some? && c.GrantsJob(n, c.meanwhile(n, w), x.meta.key.ns, x.meta.uid)
    ensures var m := c.meanwhile(n, w);
            var j := NewJob(x, mod, image.value, c.grants(n).0, c.grants(n).1, m.now);
            t.jobs == m.jobs[j.meta.key := j]
  {
    var m := c.meanwhile(n, w);
    c.GrantedJobFits(key, image.value, n, m, x, mod);
    assert a == CreateJob(key, c.grants(n).0, c.grants(n).1, image.value);
    assert t == AfterCreateJob(m, key, c.grants(n).0, c.grants(n).1, image.value);
  }

  lemma {:induction false} ChainPrefix<S(!new), A(!new)>(
      step: (nat, S, A, S) -> bool, s: S, n: nat, steps: seq<A>, k: nat, t: S)
    returns (u: S)
    requires Chain(step, s, n, steps, t) && k <= |steps|
    ensures Chain(step, s, n, steps[..k], u)
    decreases |steps|
  {
    if k == |steps| {
      assert steps[..k] == steps;
      u := t;
    } else {
      var v := ChainLast(step, s, n, steps, t);
      u := ChainPrefix(step, s, n, steps[..|steps| - 1], k, v);
      assert steps[..|steps| - 1][..k] == steps[..k];
    }
  }

  /** The Get and the List of the reconcile, when a Job is due. */
  lemma FirstTwoSteps(
      c: Cluster, image: Option<string>, key: Key, s: State, n: nat, get: Action, list: Action, u: State, v: State)
    requires Arrived(s, c.freshReads) && c.Polite(key) && key in s.flights && JobIsDue(c, image, key, s, n)
    requires get == GetExecution(key) && list.ListJobs? && list.key == key
    requires c.Step(key, image)(n, s, get, u) && c.Step(key, image)(n + 1, u, list, v)
    ensures Owned(list.jobs, c.meanwhile(n, s).executions[key].meta.uid) == []
    ensures Arrived(v, c.freshReads)
    ensures v == SetFlight(JobListing(c, key, s, n), key, ExecJobless(c.meanwhile(n, s).executions[key]))
  {
    var x := c.meanwhile(n, s).executions[key];
    StepFinds(c, key, image, n, s, get, u);
    GetRunLeaves(c, key, image, n, s, u);
    StepFinds(c, key, image, n + 1, u, list, v);
    ListJobsLeaves(c, key, image, n + 1, u, x, list, v);
  }

  /** The module is there and the call does not fail, so neither does the step. */
  lemma ReadDoesNotFail(c: Cluster, key: Key, image: Option<string>, n: nat, v: State, x: Execution, w: State)
    requires FlightAt(c.meanwhile(n, v).flights, key) == Some(ExecJobless(x))
    requires !c.fails(n) && ModuleKeyOf(x.spec) in c.meanwhile(n, v).owners
    ensures !c.Step(key, image)(n, v, Fail(key), w)
  {
  }

  lemma FirstSteps(
      c: Cluster, image: Option<string>, key: Key, s: State, n: nat, actions: seq<Action>, outcome: Outcome)
    requires JobIsDue(c, image, key, s, n) && StepsOf(c, image, key, s, n, actions, outcome)
    ensures |actions| >= 2 && actions[0] == GetExecution(key) && ExecutionController.IsList(key, actions[1])
    ensures var uid := c.meanwhile(n, s).executions[key].meta.uid;
            Owned(actions[1].jobs, uid) == [] ==>
              ExecutionController.FirstJobSteps(c, key, image, n + 2, actions[2..])
  {
    var x := c.meanwhile(n, s).executions[key];
    var more := actions[1..];
    assert ExecutionController.JobSteps(c, key, image, x, n + 1, more, outcome);
    assert more[0] == actions[1];
    if Owned(actions[1].jobs, x.meta.uid) == [] {
      var find := ExecutionController.FindSteps(c, key, x.meta.uid, n + 1, more[0]);
      assert |find| == 1 && more[1..] == actions[2..];
    }
  }

  /** When a Job is due, the reconcile takes its four steps. */
  lemma JobReached(
      c: Cluster, image: Option<string>, key: Key, s: State, n: nat, actions: seq<Action>, outcome: Outcome,
      t: State)
    requires Arrived(s, c.freshReads) && c.Polite(key) && key in s.flights && JobIsDue(c, image, key, s, n)
    requires StepsOf(c, image, key, s, n, actions, outcome) && c.Plays(key, image, s, n, actions, t)
    ensures |actions| == 4 && actions[0] == GetExecution(key) && ExecutionController.IsList(key, actions[1])
    ensures actions[2] == ReadModule(key) && ExecutionController.BuildStep(c, key, image, n + 3, actions[3])
  {
    FirstSteps(c, image, key, s, n, actions, outcome);
    var v := ChainPrefix(c.Step(key, image), s, n, actions, 2, t);
    var u := ChainTwo(c.Step(key, image), s, n, actions[..2], v);
    FirstTwoSteps(c, image, key, s, n, actions[0], actions[1], u, v);
    if |actions| == 3 {
      u, v := ChainThree(c.Step(key, image), s, n, actions, t);
      FirstTwoSteps(c, image, key, s, n, actions[0], actions[1], u, v);
      StepFinds(c, key, image, n + 2, v, actions[2], t);
      ReadDoesNotFail(c, key, image, n + 2, v, c.meanwhile(n, s).executions[key], t);
    }
  }

  lemma JobPlayed(
      c: Cluster, image: Option<string>, key: Key, s: State, n: nat, actions: seq<Action>, u: State, v: State, w: State,
      t: State)
    requires Arrived(s, c.freshReads) && c.Polite(key) && key in s.flights && JobIsDue(c, image, key, s, n)
    requires |actions| == 4 && actions[0] == GetExecution(key) && ExecutionController.IsList(key, actions[1])
    requires actions[2] == ReadModule(key) && ExecutionController.BuildStep(c, key, image, n + 3, actions[3])
    requires c.Step(key, image)(n, s, actions[0], u) && c.Step(key, image)(n + 1, u, actions[1], v)
    requires c.Step(key, image)(n + 2, v, actions[2], w) && c.Step(key, image)(n + 3, w, actions[3], t)
    ensures StoresFirstJob(c, image, key, s, n, t)
  {
    var x := c.meanwhile(n, s).executions[key];
    FirstTwoSteps(c, image, key, s, n, actions[0], actions[1], u, v);
    StepFinds(c, key, image, n + 2, v, actions[2], w);
    ReadLeaves(c, key, image, n + 2, v, x, w);
    StepFinds(c, key, image, n + 3, w, actions[3], t);
    var mod := ModuleReading(c, key, s, n).owners[ModuleKeyOf(x.spec)];
    BuildLeaves(c, key, image, n + 3, w, x, mod, actions[3], t);
  }

  lemma FirstJobStored(
      c: Cluster, image: Option<string>, key: Key, s: State, n: nat, actions: seq<Action>, outcome: Outcome,
      t: State)
    requires Arrived(s, c.freshReads) && c.Polite(key) && key in s.flights
    requires Reconciles(c, image, key, s, n, actions, outcome, t)
    ensures StoresFirstJob(c, image, key, s, n, t)
  {
    if JobIsDue(c, image, key, s, n) {
      ReconcilesFollows(c, image, key, s, n, actions, outcome, t);
      JobReached(c, image, key, s, n, actions, outcome, t);
      var u, v, w := ChainFour(c.Step(key, image), s, n, actions, t);
      JobPlayed(c, image, key, s, n, actions, u, v, w, t);
    }
  }

  /** For an execution nobody else touches: it and its module are stored, and it has no Job. */
  lemma AloneJobIsDue(c: Cluster, image: Option<string>, key: Key, s: State, n: nat)
    requires (forall k: nat, u :: c.meanwhile(k, u) == u) && (forall k: nat :: !c.fails(k))
    requires key.kind == ExecutionKind && key in s.executions && c.freshReads && image.Some?
    requires Jobless(s.jobs, s.executions[key].meta.uid)
    requires var source := ModuleKeyOf(s.executions[key].spec);
             source in s.owners && s.owners[source].spec.ModuleSpec?
    requires c.GrantsJob(n + 3, s, s.executions[key].meta.key.ns, s.executions[key].meta.uid)
    ensures JobIsDue(c, image, key, s, n)
  {
  }

  // ---------- many turns ----------

  /** Keys a worker can take. */
  predicate Takes(s: State, key: Key) {
    key in s.dirty && key !in s.flights && Reconciled(key)
  }

  /** What a worker made of one opportunity: nothing, or a turn for a key, with its steps, their end and its outcome. */
  datatype Turn = Idle | Turn(key: Key, actions: seq<Action>, end: State, outcome: Outcome)

  /**
   * After the others went on from s with the n-th step, the worker is idle because there is nothing it can take, or
   * it takes a key and has a turn for it. It leaves t, and the next step is the l-th.
   */
  ghost predicate Takings(c: Cluster, image: Option<string>, s: State, n: nat, turn: Turn, t: State, l: nat) {
    var m := c.meanwhile(n, s);
    match turn
    case Idle => (forall key :: key in m.dirty ==> !Takes(m, key)) && t == m && l == n + 1
    case Turn(key, actions, end, outcome) =>
      && Takes(m, key) && TurnFor(c, image, key, m, n + 1, actions, end, outcome, t) && l == n + 1 + |actions|
  }

  /** From s and the n-th step, the worker made this of its opportunities, one after the other, and left t. */
  ghost predicate Served(
      c: Cluster, image: Option<string>, s: State, n: nat, turns: seq<Turn>, t: State, l: nat)
    decreases |turns|
  {
    if turns == [] then t == s && l == n
    else
      var k := |turns| - 1;
      exists u, i: nat :: Served(c, image, s, n, turns[..k], u, i) && Takings(c, image, u, i, turns[k], t, l)
  }

  lemma ServedOn(
      c: Cluster, image: Option<string>, s: State, n: nat, turns: seq<Turn>, u: State, i: nat, turn: Turn, t: State,
      l: nat)
    requires Served(c, image, s, n, turns, u, i) && Takings(c, image, u, i, turn, t, l)
    ensures Served(c, image, s, n, turns + [turn], t, l)
  {
    assert (turns + [turn])[..|turns|] == turns;
  }

  /**
   * Any number of opportunities, each after the others have gone on: at each the worker takes a key and has a turn
   * for it, unless there is none to take. All of it is a run of the protocol.
   */
  method Serve(c: Cluster, settings: SettingsStore.Package, opportunities: nat) returns (ghost turns: seq<Turn>)
    requires c.Valid() && c.Orderly() && settings.Valid() && forall key :: c.Polite(key)
    modifies c
    ensures c.Valid() && Follows(old(c.s), c.s, c.freshReads) && |turns| == opportunities
    ensures Served(c, ExecutionController.ImageOf(settings), old(c.s), old(c.calls), turns, c.s, c.calls)
  {
    ghost var s0, n, image := c.s, c.calls, ExecutionController.ImageOf(settings);
    turns := [];
    LeadsToItself(s0, c.freshReads);
    FollowsExactly(s0, s0, c.freshReads);
    for i := 0 to opportunities
      invariant c.Valid() && Follows(s0, c.s, c.freshReads) && |turns| == i
      invariant Served(c, image, s0, n, turns, c.s, c.calls)
    {
      ghost var s1, l := c.s, c.calls;
      ghost var turn := ServeOne(c, settings);
      FollowsThrough(s0, s1, c.s, c.freshReads);
      ServedOn(c, image, s0, n, turns, s1, l, turn, c.s, c.calls);
      turns := turns + [turn];
    }
  }

  method ServeOne(c: Cluster, settings: SettingsStore.Package) returns (ghost turn: Turn)
    requires c.Valid() && c.Orderly() && settings.Valid() && forall key :: c.Polite(key)
    modifies c
    ensures c.Valid() && Follows(old(c.s), c.s, c.freshReads)
    ensures Takings(c, ExecutionController.ImageOf(settings), old(c.s), old(c.calls), turn, c.s, c.calls)
  {
    ghost var s1, n, image := c.s, c.calls, ExecutionController.ImageOf(settings);
    c.Wait();
    ghost var s2, k := c.s, c.calls;
    var ready := set key | key in c.s.dirty && Takes(c.s, key);
    if ready == {} {
      NothingTaken(c, image, s1, n, s2, k, ready);
      return Idle;
    }
    var key :| key in ready;
    var outcome;
    ghost var actions, end;
    outcome, actions, end := Work(c, settings, key);
    FollowsThrough(s1, s2, c.s, c.freshReads);
    turn := Turn(key, actions, end, outcome);
    TurnTaken(c, image, s1, n, s2, k, turn, c.s, c.calls);
  }

  lemma NothingTaken(c: Cluster, image: Option<string>, s: State, n: nat, t: State, l: nat, ready: set<Key>)
    requires t == c.meanwhile(n, s) && l == n + 1 && ready == {}
    requires ready == set key | key in t.dirty && Takes(t, key)
    ensures Takings(c, image, s, n, Idle, t, l)
  {
    forall key | key in t.dirty ensures !Takes(t, key) {
      assert key !in ready;
    }
  }

  lemma TurnTaken(
      c: Cluster, image: Option<string>, s: State, n: nat, m: State, k: nat, turn: Turn, t: State, l: nat)
    requires m == c.meanwhile(n, s) && k == n + 1 && turn.Turn? && l == k + |turn.actions| && Takes(m, turn.key)
    requires TurnFor(c, image, turn.key, m, k, turn.actions, turn.end, turn.outcome, t)
    ensures Takings(c, image, s, n, turn, t, l)
  {
  }
}
