/**
 * The cluster as a shared, mutable object, and the API calls a reconcile makes against it. What everyone else
 * does before each call, which calls fail and which names the server gives out are parameters, so that what a
 * reconcile makes of them is determined.
 */
module ApiServer {
  import opened Basics
  import opened Objects
  import opened Decisions
  import opened Selection
  import opened Protocol
  import opened Invariants
  import opened BaseRuns

  // ---------- runs ----------

  lemma RunBefore(s: State, a: Action, run: seq<Action>, freshReads: bool)
    requires Enabled(s, a) && (freshReads ==> FreshRead(s, a)) && CanRun(Apply(s, a), run, freshReads)
    ensures CanRun(s, [a] + run, freshReads)
    ensures Final(s, [a] + run, freshReads) == Final(Apply(s, a), run, freshReads)
  {
    assert ([a] + run)[1..] == run;
  }

  lemma {:induction false} RunAppend(s: State, run: seq<Action>, a: Action, freshReads: bool)
    requires CanRun(s, run, freshReads) && Enabled(Final(s, run, freshReads), a)
    requires freshReads ==> FreshRead(Final(s, run, freshReads), a)
    ensures CanRun(s, run + [a], freshReads)
    ensures Final(s, run + [a], freshReads) == Apply(Final(s, run, freshReads), a)
    decreases |run|
  {
    if run != [] {
      RunAppend(Apply(s, run[0]), run[1..], a, freshReads);
      RunBefore(s, run[0], run[1..] + [a], freshReads);
      assert [run[0]] + (run[1..] + [a]) == run + [a];
    } else {
      RunBefore(s, a, [], freshReads);
      assert run + [a] == [a] + [];
    }
  }

  /** A step more still leads there, and stays reachable. */
  lemma LeadsOn(s: State, t: State, a: Action, freshReads: bool)
    requires Leads(s, t, freshReads) && Enabled(t, a) && (freshReads ==> FreshRead(t, a))
    ensures Leads(s, Apply(t, a), freshReads)
  {
    var run :| CanRun(s, run, freshReads) && Final(s, run, freshReads) == t;
    RunAppend(s, run, a, freshReads);
  }

  lemma ReachesOn(t: State, a: Action, freshReads: bool)
    requires Reachable(t, freshReads) && Enabled(t, a) && (freshReads ==> FreshRead(t, a))
    ensures Reachable(Apply(t, a), freshReads)
  {
    var s :| Initial(s) && Leads(s, t, freshReads);
    LeadsOn(s, t, a, freshReads);
  }

  lemma LeadsToItself(s: State, freshReads: bool)
    ensures Leads(s, s, freshReads)
  {
    assert CanRun(s, [], freshReads) && Final(s, [], freshReads) == s;
  }

  // ---------- folded facts ----------

  /**
   * A fact as a value. Methods pass it on as it is; only the lemmas that call FoldExactly look inside. Runs are
   * deep, and unfolding them at every call would drown the verifier.
   */
  datatype Claim = Held | Broken

  ghost predicate Unfold(i: nat) {
    true
  }

  ghost function Fold<X(!new)>(p: X -> bool, x: X): Claim {
    if forall i: nat {:trigger Unfold(i)} :: Unfold(i) ==> p(x) then Held else Broken
  }

  lemma FoldExactly<X(!new)>(p: X -> bool, x: X)
    ensures Fold(p, x) == Held <==> p(x)
  {
    assert Unfold(0);
  }

  ghost function Reaching(freshReads: bool): State -> bool {
    s => Reachable(s, freshReads)
  }

  ghost function LeadingFrom(s: State, freshReads: bool): State -> bool {
    t => Leads(s, t, freshReads)
  }

  /** Reachable, folded. */
  ghost predicate Arrived(s: State, freshReads: bool) {
    Fold(Reaching(freshReads), s) == Held
  }

  /** Leads, folded. */
  ghost predicate Follows(s: State, t: State, freshReads: bool) {
    Fold(LeadingFrom(s, freshReads), t) == Held
  }

  lemma ArrivedExactly(s: State, freshReads: bool)
    ensures Arrived(s, freshReads) <==> Reachable(s, freshReads)
  {
    FoldExactly(Reaching(freshReads), s);
  }

  lemma FollowsExactly(s: State, t: State, freshReads: bool)
    ensures Follows(s, t, freshReads) <==> Leads(s, t, freshReads)
  {
    FoldExactly(LeadingFrom(s, freshReads), t);
  }

  lemma StartsArrived(s: State, freshReads: bool)
    requires Initial(s)
    ensures Arrived(s, freshReads)
  {
    LeadsToItself(s, freshReads);
    ArrivedExactly(s, freshReads);
  }

  lemma ArrivesOn(s: State, a: Action, freshReads: bool)
    requires Arrived(s, freshReads) && Enabled(s, a) && (freshReads ==> FreshRead(s, a))
    ensures Arrived(Apply(s, a), freshReads)
  {
    ArrivedExactly(s, freshReads);
    ReachesOn(s, a, freshReads);
    ArrivedExactly(Apply(s, a), freshReads);
  }

  lemma FollowsOn(s: State, t: State, a: Action, freshReads: bool)
    requires Follows(s, t, freshReads) && Enabled(t, a) && (freshReads ==> FreshRead(t, a))
    ensures Follows(s, Apply(t, a), freshReads)
  {
    FollowsExactly(s, t, freshReads);
    LeadsOn(s, t, a, freshReads);
    FollowsExactly(s, Apply(t, a), freshReads);
  }

  lemma FollowsThrough(s: State, t: State, u: State, freshReads: bool)
    requires Follows(s, t, freshReads) && Follows(t, u, freshReads)
    ensures Follows(s, u, freshReads)
  {
    FollowsExactly(t, u, freshReads);
    var more :| CanRun(t, more, freshReads) && Final(t, more, freshReads) == u;
    FollowsAlong(s, t, more, freshReads);
  }

  lemma {:induction false} FollowsAlong(s: State, t: State, more: seq<Action>, freshReads: bool)
    requires Follows(s, t, freshReads) && CanRun(t, more, freshReads)
    ensures Follows(s, Final(t, more, freshReads), freshReads)
    decreases |more|
  {
    if more != [] {
      FollowsOn(s, t, more[0], freshReads);
      FollowsAlong(s, Apply(t, more[0]), more[1..], freshReads);
    }
  }

  // ---------- answers ----------

  datatype Reply<+T> = Found(value: T) | NotFound | Fault

  datatype Update = Applied | Conflict | Missing | Rejected

  /** What a reconcile sends to create an execution; the server adds name, uid, version and times. */
  datatype ExecutionDraft = ExecutionDraft(
    ns: string, controller: ControllerRef, annotations: map<string, string>, spec: ExecutionSpec)

  function StoredExecution(d: ExecutionDraft, uid: Uid, name: string, now: nat, version: nat): Execution {
    Object(Meta(Key(ExecutionKind, d.ns, name), uid, Some(d.controller), now, 1, version, d.annotations), d.spec,
        NO_EXECUTION_STATUS)
  }

  /** d is what the owner's run should be created from. */
  ghost predicate DraftFor(o: Owner, d: ExecutionDraft) {
    forall uid: Uid, name, now: nat, version: nat ::
        StoredExecution(d, uid, name, now, version) == NewExecution(o, uid, name, now, version)
  }

  datatype JobDraft = JobDraft(ns: string, controller: ControllerRef, spec: JobSpec)

  function StoredJob(d: JobDraft, uid: Uid, name: string, now: nat): Job {
    Object(Meta(Key(JobKind, d.ns, name), uid, Some(d.controller), now, 1, 0, map[]), d.spec, NO_JOB_STATUS)
  }

  ghost predicate JobDraftFor(x: Execution, m: Owner, defaultImage: string, d: JobDraft) {
    m.spec.ModuleSpec? &&
    forall uid: Uid, name, now: nat :: StoredJob(d, uid, name, now) == NewJob(x, m, defaultImage, uid, name, now)
  }

  /** Every execution of uid was created before now. */
  predicate AllBefore(executions: Executions, uid: Uid, now: nat) {
    forall k :: k in executions && ControlledBy(executions[k].meta, uid) ==> executions[k].meta.created < now
  }

  // ---------- lists ----------

  /** A List answer: the objects of one namespace, in whatever order. */
  method ListOf<S, T>(objects: map<Key, Object<S, T>>, ns: string) returns (items: seq<Object<S, T>>)
    requires forall k :: k in objects ==> objects[k].meta.key == k
    ensures IsListing(objects, ns, items)
  {
    items := [];
    var left := objects.Keys;
    while left != {}
      invariant left <= objects.Keys
      invariant forall i :: 0 <= i < |items| ==>
        items[i].meta.key.ns == ns && items[i].meta.key in objects && objects[items[i].meta.key] == items[i]
        && items[i].meta.key !in left
      invariant forall k :: k in objects && k !in left && k.ns == ns ==> objects[k] in items
      invariant forall i, j :: 0 <= i < j < |items| ==> items[i].meta.key != items[j].meta.key
      decreases |left|
    {
      var k :| k in left;
      left := left - {k};
      if k.ns == ns {
        items := items + [objects[k]];
      }
    }
  }

  lemma ExecutionsKeyed(s: State, freshReads: bool)
    requires Arrived(s, freshReads)
    ensures forall k :: k in s.executions ==> s.executions[k].meta.key == k
  {
    ArrivedExactly(s, freshReads);
    ReachableBase(s, freshReads);
    assert forall k :: k in s.executions ==> ExecOk(s.log, k, s.executions[k]);
  }

  lemma ViewsKeyed(s: State, freshReads: bool)
    requires Arrived(s, freshReads)
    ensures s.jobs in s.log.views
    ensures forall v: Jobs, k :: v in s.log.views && k in v ==> v[k].meta.key == k
  {
    ArrivedExactly(s, freshReads);
    ReachableBase(s, freshReads);
    forall v: Jobs, k | v in s.log.views && k in v ensures v[k].meta.key == k {
      assert ViewOk(s.log.made, v);
      assert Traced(s.log.made, k, v[k].meta) && MadeJobOk(s.log.home, s.log.newest, k, s.log.made[k]);
    }
  }

  lemma ModulesAreModules(s: State, k: Key, freshReads: bool)
    requires Arrived(s, freshReads) && k in s.owners && k.kind == ModuleKind
    ensures s.owners[k].spec.ModuleSpec?
  {
    ArrivedExactly(s, freshReads);
    ReachableBase(s, freshReads);
    assert OwnerOk(s.log, k, s.owners[k]);
  }

  // ---------- chains ----------

  lemma Associative<A>(a: seq<A>, b: seq<A>, c: seq<A>)
    ensures a + b + c == a + (b + c)
  {
  }

  /** From s, counting from n, one step after the other, to t. */
  ghost predicate Chain<S(!new), A(!new)>(step: (nat, S, A, S) -> bool, s: S, n: nat, steps: seq<A>, t: S)
    decreases |steps|
  {
    if steps == [] then t == s
    else
      var k := |steps| - 1;
      exists u :: Chain(step, s, n, steps[..k], u) && step(n + k, u, steps[k], t)
  }

  lemma ChainOn<S(!new), A(!new)>(step: (nat, S, A, S) -> bool, s: S, n: nat, steps: seq<A>, t: S, a: A, u: S)
    requires Chain(step, s, n, steps, t) && step(n + |steps|, t, a, u)
    ensures Chain(step, s, n, steps + [a], u)
  {
    assert (steps + [a])[..|steps|] == steps;
  }

  lemma {:induction false} ChainKeeps<S(!new), A(!new)>(
      step: (nat, S, A, S) -> bool, p: S -> bool, s: S, n: nat, steps: seq<A>, t: S)
    requires Chain(step, s, n, steps, t) && p(s)
    requires forall i: nat, u, a, v :: p(u) && step(i, u, a, v) ==> p(v)
    ensures p(t)
    decreases |steps|
  {
    if steps != [] {
      var k := |steps| - 1;
      var u :| Chain(step, s, n, steps[..k], u) && step(n + k, u, steps[k], t);
      ChainKeeps(step, p, s, n, steps[..k], u);
    }
  }

  // ---------- the cluster ----------

  /** The steps of the reconcile of key. */
  predicate OfReconcile(key: Key, a: Action) {
    (a.Fail? || ByOwnerReconcile(a) || ByExecutionReconcile(a)) && a.key == key
  }

  /** Going on from f takes a call to the server. */
  predicate Calls(f: Flight) {
    match f
    case OwnerListed(o, last) => !Decide(o, last).Rest?
    case ExecJob(x, latest, stale) => stale == [] && NextStatus(x.status, latest) != x.status
    case Ended(_) => false
    case _ => true
  }

  class Cluster {
    var s: State
    /** How many steps have been taken. */
    var calls: nat

    /** The reconcile in progress: where it began, and the steps it has taken since. */
    ghost var first: State
    ghost var from: nat
    ghost var taken: seq<Action>

    const freshReads: bool
    /** What everyone else makes of the cluster before the n-th step. */
    const meanwhile: (nat, State) -> State
    /** The n-th call fails. */
    const fails: nat -> bool
    /** The uid and the name the server gives to an object that the n-th call creates. */
    const grants: nat -> (Uid, string)

    ghost predicate Valid()
      reads this
    {
      Arrived(s, freshReads)
    }

    /** The reconcile of key has come as far as f. */
    ghost predicate At(key: Key, f: Flight)
      reads this
    {
      key in s.flights && s.flights[key] == f
    }

    /** What the others do are steps of the protocol that leave the reconcile of key where it was. */
    ghost predicate PoliteTo(key: Key) {
      forall n: nat, s: State :: Arrived(s, freshReads) && key in s.flights ==>
        && Follows(s, meanwhile(n, s), freshReads) && Arrived(meanwhile(n, s), freshReads)
        && FlightAt(meanwhile(n, s).flights, key) == FlightAt(s.flights, key)
    }

    ghost function Politeness(): Key -> bool {
      key => PoliteTo(key)
    }

    /** PoliteTo, folded. */
    ghost predicate Polite(key: Key) {
      Fold(Politeness(), key) == Held
    }

    /**
     * The n-th step of the reconcile of key must fail, when it meets m: its call fails, or the server refuses
     * to create, or the module is not there, or the settings have no default image to give.
     */
    ghost predicate MustFail(key: Key, image: Option<string>, n: nat, m: State) {
      key in m.flights &&
      var f := m.flights[key];
      || (fails(n) && Calls(f))
      || (CallsForRun(m, key) && !CanCreateExecution(m, key, grants(n).0, grants(n).1))
      || (f.ExecJobless? && ModuleKeyOf(f.exec.spec) !in m.owners)
      || (f.ExecModule? && (image.None? || !CanCreateJob(m, key, grants(n).0, grants(n).1)))
    }

    /** a is a step the reconcile of key may take as its n-th, when it meets m. */
    ghost predicate Fits(key: Key, image: Option<string>, n: nat, m: State, a: Action) {
      && Enabled(m, a) && OfReconcile(key, a) && (freshReads ==> FreshRead(m, a))
      && (a.Fail? <==> MustFail(key, image, n, m))
      && (a.PruneJob? ==> a.deleted == !fails(n))
      && (a.CreateExecution? || a.CreateJob? ==> (a.uid, a.name) == grants(n))
      && (a.CreateJob? ==> image == Some(a.defaultImage))
    }

    /** As its n-th step after u, the others going first, the reconcile of key takes a, and leaves t. */
    ghost function Step(key: Key, image: Option<string>): (nat, State, Action, State) -> bool {
      (n: nat, u: State, a: Action, t: State) =>
        Fits(key, image, n, meanwhile(n, u), a) && t == Apply(meanwhile(n, u), a)
    }

    /** From s, counting from n, the reconcile of key takes these steps and leaves t. */
    ghost predicate Plays(key: Key, image: Option<string>, s: State, n: nat, actions: seq<Action>, t: State) {
      Chain(Step(key, image), s, n, actions, t)
    }

    ghost function Record(key: Key, image: Option<string>, s: State, n: nat, actions: seq<Action>): State -> bool {
      t => Plays(key, image, s, n, actions, t)
    }

    /** The reconcile of key is in progress, and its steps are on record. */
    ghost predicate Working(key: Key, image: Option<string>)
      reads this
    {
      Valid() && calls == from + |taken| && Fold(Record(key, image, first, from, taken), s) == Held
    }

    /** The reconcile began at s, with step n, and its steps so far are these. */
    ghost predicate After(key: Key, image: Option<string>, s: State, n: nat, actions: seq<Action>)
      reads this
    {
      Working(key, image) && first == s && from == n && taken == actions
    }

    /** These are all its steps, from where the method began. */
    twostate predicate Played(key: Key, image: Option<string>, actions: seq<Action>)
      reads this
    {
      Valid() && calls == old(calls) + |actions| && Fold(Record(key, image, old(s), old(calls), actions), s) == Held
    }

    lemma FitsLeads(key: Key, image: Option<string>, s: State, n: nat, a: Action)
      requires Arrived(s, freshReads) && Polite(key) && key in s.flights && Fits(key, image, n, meanwhile(n, s), a)
      ensures var t := Apply(meanwhile(n, s), a);
              Follows(s, t, freshReads) && Arrived(t, freshReads) && key in t.flights
    {
      var m := meanwhile(n, s);
      FoldExactly(Politeness(), key);
      FollowsOn(s, m, a, freshReads);
      ArrivesOn(m, a, freshReads);
      StepKeepsFlight(key, m, a);
    }

    lemma StepKeepsFlight(key: Key, m: State, a: Action)
      requires Enabled(m, a) && OfReconcile(key, a)
      ensures key in Apply(m, a).flights
    {
      if ByOwnerReconcile(a) {
        OwnerStepKeepsFlight(m, a);
      } else if ByExecutionReconcile(a) {
        ExecutionStepKeepsFlight(m, a);
      }
    }

    lemma OwnerStepKeepsFlight(m: State, a: Action)
      requires Enabled(m, a) && ByOwnerReconcile(a)
      ensures a.key in Apply(m, a).flights
    {
    }

    lemma ExecutionStepKeepsFlight(m: State, a: Action)
      requires Enabled(m, a) && ByExecutionReconcile(a)
      ensures a.key in Apply(m, a).flights
    {
    }

    /** What a reconcile does, with everyone else, is a run of the protocol. */
    lemma PlaysIsRun(key: Key, image: Option<string>, s: State, n: nat, actions: seq<Action>, t: State)
      requires Arrived(s, freshReads) && Polite(key) && key in s.flights && Plays(key, image, s, n, actions, t)
      ensures Follows(s, t, freshReads) && Arrived(t, freshReads) && key in t.flights
    {
      var reached := (u: State) => Follows(s, u, freshReads) && Arrived(u, freshReads) && key in u.flights;
      LeadsToItself(s, freshReads);
      FollowsExactly(s, s, freshReads);
      forall i: nat, u, a, v | reached(u) && Step(key, image)(i, u, a, v) ensures reached(v) {
        FitsLeads(key, image, u, i, a);
        FollowsThrough(s, u, v, freshReads);
      }
      ChainKeeps(Step(key, image), reached, s, n, actions, t);
    }

    constructor (
        freshReads: bool, meanwhile: (nat, State) -> State, fails: nat -> bool, grants: nat -> (Uid, string))
      ensures Valid() && s.flights == map[] && calls == 0
      ensures this.freshReads == freshReads && this.meanwhile == meanwhile && this.fails == fails
      ensures this.grants == grants
    {
      s := State(map[], map[], map[], 0, {}, map[], Log(0, map[], map[], map[], map[], {map[]}));
      calls := 0;
      this.freshReads := freshReads;
      this.meanwhile := meanwhile;
      this.fails := fails;
      this.grants := grants;
      new;
      StartsArrived(s, freshReads);
    }

    // ---------- the work queue ----------

    /** What the others do is a run of the protocol, whoever is in flight. */
    ghost predicate Orderly() {
      forall n: nat, s: State :: Arrived(s, freshReads) ==>
        Follows(s, meanwhile(n, s), freshReads) && Arrived(meanwhile(n, s), freshReads)
    }

    /** The others go on. */
    method Wait()
      requires Valid() && Orderly()
      modifies this
      ensures Valid() && Follows(old(s), s, freshReads)
      ensures s == meanwhile(old(calls), old(s)) && calls == old(calls) + 1
    {
      s := meanwhile(calls, s);
      calls := calls + 1;
    }

    lemma QueueStep(s: State, a: Action, t: State)
      requires Arrived(s, freshReads) && Enabled(s, a) && !a.ListJobs? && t == Apply(s, a)
      ensures Follows(s, t, freshReads) && Arrived(t, freshReads)
    {
      LeadsToItself(s, freshReads);
      FollowsExactly(s, s, freshReads);
      FollowsOn(s, s, a, freshReads);
      ArrivesOn(s, a, freshReads);
    }

    /** Takes key from the queue. */
    method Pop(key: Key)
      requires Valid() && key in s.dirty && key !in s.flights
      modifies this`s
      ensures Valid() && Follows(old(s), s, freshReads) && At(key, Popped)
      ensures s == SetFlight(old(s), key, Popped).(dirty := old(s).dirty - {key})
    {
      var t := SetFlight(s, key, Popped).(dirty := s.dirty - {key});
      QueueStep(s, Action.Pop(key), t);
      s := t;
    }

    /** Hands the outcome of a reconcile to the queue: an error, or a wish to come back at once, requeues the key. */
    method Finish(key: Key, outcome: Outcome)
      requires Valid() && At(key, Ended(outcome))
      modifies this`s
      ensures Valid() && Follows(old(s), s, freshReads)
      ensures s == old(s).(
                flights := old(s).flights - {key},
                dirty := if outcome.Error? || outcome.RequeueNow? then old(s).dirty + {key} else old(s).dirty)
    {
      var dirty := if outcome == Error || outcome == RequeueNow then s.dirty + {key} else s.dirty;
      var t := s.(flights := s.flights - {key}, dirty := dirty);
      QueueStep(s, Action.Finish(key), t);
      s := t;
    }

    /** A new record, for the reconcile of key. */
    ghost method Begin(key: Key, image: Option<string>)
      requires Valid()
      modifies this`first, this`from, this`taken
      ensures Working(key, image) && first == s && from == calls && taken == []
    {
      first, from, taken := s, calls, [];
      FoldExactly(Record(key, image, first, from, []), s);
    }

    /** What the next step meets. */
    method Meet(key: Key) returns (m: State)
      requires Valid() && Polite(key) && key in s.flights
      ensures m == meanwhile(calls, s) && Arrived(m, freshReads) && FlightAt(m.flights, key) == FlightAt(s.flights, key)
    {
      m := meanwhile(calls, s);
      FoldExactly(Politeness(), key);
    }

    lemma RecordOn(key: Key, image: Option<string>, s: State, n: nat, actions: seq<Action>, t: State, a: Action,
        u: State)
      requires Fold(Record(key, image, s, n, actions), t) == Held
      requires Step(key, image)(n + |actions|, t, a, u)
      ensures Fold(Record(key, image, s, n, actions + [a]), u) == Held
    {
      FoldExactly(Record(key, image, s, n, actions), t);
      ChainOn(Step(key, image), s, n, actions, t, a, u);
      FoldExactly(Record(key, image, s, n, actions + [a]), u);
    }

    ghost function NextStep(key: Key, image: Option<string>, n: nat, s: State, a: Action): State -> bool {
      t => Fits(key, image, n, meanwhile(n, s), a) && t == Apply(meanwhile(n, s), a)
    }

    lemma Recorded(key: Key, image: Option<string>, s: State, n: nat, actions: seq<Action>, k: nat, t: State,
        a: Action, u: State)
      requires Fold(Record(key, image, s, n, actions), t) == Held && k == n + |actions|
      requires Fold(NextStep(key, image, k, t, a), u) == Held
      ensures Fold(Record(key, image, s, n, actions + [a]), u) == Held
    {
      FoldExactly(NextStep(key, image, k, t, a), u);
      RecordOn(key, image, s, n, actions, t, a, u);
    }

    /** Going on from s, the reconcile of key may take a as its n-th step, and gets to t; folded. */
    ghost predicate Ready(key: Key, image: Option<string>, n: nat, s: State, a: Action, t: State) {
      Fold(NextStep(key, image, n, s, a), t) == Held && Arrived(t, freshReads)
    }

    lemma StepReady(key: Key, image: Option<string>, n: nat, s: State, a: Action, t: State)
      requires Arrived(meanwhile(n, s), freshReads) && Fits(key, image, n, meanwhile(n, s), a)
      requires t == Apply(meanwhile(n, s), a)
      ensures Ready(key, image, n, s, a, t)
    {
      ArrivesOn(meanwhile(n, s), a, freshReads);
      FoldExactly(NextStep(key, image, n, s, a), t);
    }

    lemma FailReady(key: Key, image: Option<string>, n: nat, s: State)
      requires Arrived(meanwhile(n, s), freshReads) && Fits(key, image, n, meanwhile(n, s), Fail(key))
      ensures Ready(key, image, n, s, Fail(key), SetFlight(meanwhile(n, s), key, Ended(Error)))
    {
      StepReady(key, image, n, s, Fail(key), SetFlight(meanwhile(n, s), key, Ended(Error)));
    }

    /** The next step of the reconcile of key. */
    method Take(ghost key: Key, ghost image: Option<string>, ghost a: Action, t: State)
      requires Working(key, image) && Ready(key, image, calls, s, a, t)
      modifies this
      ensures After(key, image, old(first), old(from), old(taken) + [a]) && s == t
    {
      Recorded(key, image, first, from, taken, calls, s, a, t);
      Note(a);
      s, calls := t, calls + 1;
    }

    ghost method Note(a: Action)
      modifies this`taken
      ensures taken == old(taken) + [a]
    {
      taken := taken + [a];
    }

    /** The call fails, and with it the reconcile. */
    method Abort(key: Key, ghost image: Option<string>, m: State)
      requires Working(key, image) && Ready(key, image, calls, s, Fail(key), SetFlight(m, key, Ended(Error)))
      modifies this
      ensures After(key, image, old(first), old(from), old(taken) + [Fail(key)])
      ensures s == SetFlight(m, key, Ended(Error))
    {
      Take(key, image, Fail(key), SetFlight(m, key, Ended(Error)));
    }

    // ---------- owners ----------

    lemma GetOwnerReady(key: Key, n: nat, s: State)
      requires Arrived(meanwhile(n, s), freshReads) && IsOwnerKind(key.kind)
      requires FlightAt(meanwhile(n, s).flights, key) == Some(Popped)
      ensures var m := meanwhile(n, s);
              if fails(n) then Ready(key, None, n, s, Fail(key), SetFlight(m, key, Ended(Error)))
              else Ready(key, None, n, s, Action.GetOwner(key), AfterGetOwner(m, key))
    {
      if fails(n) {
        FailReady(key, None, n, s);
      } else {
        StepReady(key, None, n, s, Action.GetOwner(key), AfterGetOwner(meanwhile(n, s), key));
      }
    }

    method GetOwner(key: Key) returns (r: Reply<Owner>)
      requires Working(key, None) && Polite(key) && IsOwnerKind(key.kind) && At(key, Popped)
      modifies this
      ensures After(key, None, old(first), old(from), old(taken)
              + [if r.Fault? then Fail(key) else Action.GetOwner(key)])
      ensures var owners := meanwhile(old(calls), old(s)).owners;
              && (r.Found? ==> At(key, OwnerGot(r.value)) && key in owners && r.value == owners[key])
              && (r.NotFound? ==> At(key, Ended(Done)) && key !in owners)
      ensures (r.Fault? <==> fails(old(calls))) && (r.Fault? ==> At(key, Ended(Error)))
    {
      var m := Meet(key);
      GetOwnerReady(key, calls, s);
      if fails(calls) {
        r := Fault;
        Abort(key, None, m);
      } else {
        r := if key in m.owners then Found(m.owners[key]) else NotFound;
        Take(key, None, Action.GetOwner(key), AfterGetOwner(m, key));
      }
    }

    lemma ListExecutionsReady(key: Key, n: nat, s: State, o: Owner, items: seq<Execution>)
      requires Arrived(meanwhile(n, s), freshReads) && FlightAt(meanwhile(n, s).flights, key) == Some(OwnerGot(o))
      requires IsListing(meanwhile(n, s).executions, o.meta.key.ns, items)
      ensures var m := meanwhile(n, s);
              if fails(n) then Ready(key, None, n, s, Fail(key), SetFlight(m, key, Ended(Error)))
              else Ready(key, None, n, s, Action.ListExecutions(key, items), AfterListExecutions(m, key, items))
    {
      if fails(n) {
        FailReady(key, None, n, s);
      } else {
        ExecutionsListedReady(key, n, s, o, items);
      }
    }

    lemma ExecutionsListedReady(key: Key, n: nat, s: State, o: Owner, items: seq<Execution>)
      requires Arrived(meanwhile(n, s), freshReads) && FlightAt(meanwhile(n, s).flights, key) == Some(OwnerGot(o))
      requires IsListing(meanwhile(n, s).executions, o.meta.key.ns, items) && !fails(n)
      ensures Ready(key, None, n, s, Action.ListExecutions(key, items),
                    AfterListExecutions(meanwhile(n, s), key, items))
    {
      var a := Action.ListExecutions(key, items);
      StepReady(key, None, n, s, a, AfterListExecutions(meanwhile(n, s), key, items));
    }

    method ListExecutions(key: Key, o: Owner) returns (r: Reply<seq<Execution>>)
      requires Working(key, None) && Polite(key) && At(key, OwnerGot(o))
      modifies this
      ensures !r.NotFound?
      ensures After(key, None, old(first), old(from), old(taken)
              + [if r.Fault? then Fail(key) else Action.ListExecutions(key, r.value)])
      ensures r.Found? ==> At(key, OwnerListed(o, Select(r.value, o.meta.uid)))
      ensures (r.Fault? <==> fails(old(calls))) && (r.Fault? ==> At(key, Ended(Error)))
    {
      var m := Meet(key);
      ExecutionsKeyed(m, freshReads);
      var items := ListOf(m.executions, o.meta.key.ns);
      ListExecutionsReady(key, calls, s, o, items);
      if fails(calls) {
        r := Fault;
        Abort(key, None, m);
      } else {
        r := Found(items);
        Take(key, None, Action.ListExecutions(key, items), AfterListExecutions(m, key, items));
      }
    }

    /** The server accepts this name and uid for the owner's next execution. */
    predicate GrantsExecution(n: nat, m: State, ns: string, owner: Uid) {
      && grants(n).0 !in m.log.home && !Used(m.log.home, Key(ExecutionKind, ns, grants(n).1))
      && AllBefore(m.executions, owner, m.now)
    }

    lemma CreateExecutionReady(key: Key, n: nat, s: State, o: Owner, last: Option<Execution>)
      requires Arrived(meanwhile(n, s), freshReads) && Decide(o, last).CreateRun?
      requires FlightAt(meanwhile(n, s).flights, key) == Some(OwnerListed(o, last))
      ensures var m := meanwhile(n, s);
              var (uid, name) := grants(n);
              if !fails(n) && GrantsExecution(n, m, o.meta.key.ns, o.meta.uid)
              then Ready(key, None, n, s, Action.CreateExecution(key, uid, name),
                         AfterCreateExecution(m, key, uid, name))
              else Ready(key, None, n, s, Fail(key), SetFlight(m, key, Ended(Error)))
    {
      var m := meanwhile(n, s);
      var (uid, name) := grants(n);
      if !fails(n) && GrantsExecution(n, m, o.meta.key.ns, o.meta.uid) {
        GrantedExecutionReady(key, n, s, o, last);
      } else {
        RefusedExecutionReady(key, n, s, o, last);
      }
    }

    lemma GrantedExecutionReady(key: Key, n: nat, s: State, o: Owner, last: Option<Execution>)
      requires Arrived(meanwhile(n, s), freshReads) && Decide(o, last).CreateRun? && !fails(n)
      requires FlightAt(meanwhile(n, s).flights, key) == Some(OwnerListed(o, last))
      requires GrantsExecution(n, meanwhile(n, s), o.meta.key.ns, o.meta.uid)
      ensures Ready(key, None, n, s, Action.CreateExecution(key, grants(n).0, grants(n).1),
                    AfterCreateExecution(meanwhile(n, s), key, grants(n).0, grants(n).1))
    {
      var t := AfterCreateExecution(meanwhile(n, s), key, grants(n).0, grants(n).1);
      GrantedExecutionFits(key, n, meanwhile(n, s), o, last);
      StepReady(key, None, n, s, Action.CreateExecution(key, grants(n).0, grants(n).1), t);
    }

    lemma GrantedExecutionFits(key: Key, n: nat, m: State, o: Owner, last: Option<Execution>)
      requires Decide(o, last).CreateRun? && !fails(n) && FlightAt(m.flights, key) == Some(OwnerListed(o, last))
      requires GrantsExecution(n, m, o.meta.key.ns, o.meta.uid)
      ensures Fits(key, None, n, m, Action.CreateExecution(key, grants(n).0, grants(n).1))
    {
      assert CanCreateExecution(m, key, grants(n).0, grants(n).1);
      assert !MustFail(key, None, n, m);
    }

    lemma RefusedExecutionReady(key: Key, n: nat, s: State, o: Owner, last: Option<Execution>)
      requires Arrived(meanwhile(n, s), freshReads) && Decide(o, last).CreateRun?
      requires FlightAt(meanwhile(n, s).flights, key) == Some(OwnerListed(o, last))
      requires fails(n) || !GrantsExecution(n, meanwhile(n, s), o.meta.key.ns, o.meta.uid)
      ensures Ready(key, None, n, s, Fail(key), SetFlight(meanwhile(n, s), key, Ended(Error)))
    {
      FailReady(key, None, n, s);
    }

    /** The server stores the draft under a new uid and a new name, later than its siblings; or the call fails. */
    method CreateExecution(key: Key, ghost o: Owner, ghost last: Option<Execution>, d: ExecutionDraft)
      returns (created: bool)
      requires Working(key, None) && Polite(key) && At(key, OwnerListed(o, last))
      requires Decide(o, last).CreateRun? && DraftFor(o, d)
      modifies this
      ensures var n := old(calls);
              var m := meanwhile(n, old(s));
              var e := NewExecution(o, grants(n).0, grants(n).1, m.now, m.log.version);
              && (created <==> !fails(n) && GrantsExecution(n, m, o.meta.key.ns, o.meta.uid))
              && After(key, None, old(first), old(from), old(taken)
                 + [if created then Action.CreateExecution(key, grants(n).0, grants(n).1) else Fail(key)])
              && s.executions == if created then m.executions[e.meta.key := e] else m.executions
      ensures At(key, Ended(if created then Done else Error))
    {
      var m := Meet(key);
      var (uid, name) := grants(calls);
      var e := StoredExecution(d, uid, name, m.now, m.log.version);
      assert e == NewExecution(o, uid, name, m.now, m.log.version);
      CreateExecutionReady(key, calls, s, o, last);
      created := !fails(calls) && GrantsExecution(calls, m, d.ns, d.controller.uid);
      if created {
        Take(key, None, Action.CreateExecution(key, uid, name), SetFlight(PutExecution(m, e), key, Ended(Done)).(
          log := Bump(m.log).(home := m.log.home[uid := e.meta.key])));
      } else {
        Abort(key, None, m);
      }
    }

    lemma UpdateOwnerReady(key: Key, n: nat, s: State, o: Owner, last: Option<Execution>)
      requires Arrived(meanwhile(n, s), freshReads) && Decide(o, last).Mirror?
      requires FlightAt(meanwhile(n, s).flights, key) == Some(OwnerListed(o, last))
      ensures var m := meanwhile(n, s);
              if fails(n) then Ready(key, None, n, s, Fail(key), SetFlight(m, key, Ended(Error)))
              else Ready(key, None, n, s, UpdateOwner(key), AfterUpdateOwner(m, key))
    {
      if fails(n) {
        FailReady(key, None, n, s);
      } else {
        StepReady(key, None, n, s, UpdateOwner(key), AfterUpdateOwner(meanwhile(n, s), key));
      }
    }

    /** A status update carrying the version of o. */
    method UpdateOwnerStatus(key: Key, o: Owner, ghost last: Option<Execution>, status: OwnerStatus)
      returns (r: Update)
      requires Working(key, None) && Polite(key) && At(key, OwnerListed(o, last))
      requires Decide(o, last) == Mirror(status) && o.meta.key == key
      modifies this
      ensures After(key, None, old(first), old(from), old(taken)
              + [if r.Rejected? then Fail(key) else UpdateOwner(key)])
      ensures At(key, Ended(if r.Applied? || r.Conflict? then Done else Error))
      ensures var m := meanwhile(old(calls), old(s));
              r == if fails(old(calls)) then Rejected
                   else if key !in m.owners then Missing
                   else if m.owners[key].meta.version != o.meta.version then Conflict else Applied
      ensures var m := meanwhile(old(calls), old(s));
              s.owners == if r.Applied?
                          then m.owners[key := o.(status := status, meta := o.meta.(version := m.log.version))]
                          else m.owners
    {
      var m := Meet(key);
      UpdateOwnerReady(key, calls, s, o, last);
      if fails(calls) {
        r := Rejected;
        Abort(key, None, m);
      } else {
        r := if key !in m.owners then Missing
             else if m.owners[key].meta.version != o.meta.version then Conflict else Applied;
        var t := if r.Applied? then PutOwner(m, o.(status := status)) else m;
        Take(key, None, UpdateOwner(key), SetFlight(t, key, Ended(if r.Missing? then Error else Done)));
      }
    }

    lemma RestReady(key: Key, n: nat, s: State, o: Owner, last: Option<Execution>)
      requires Arrived(meanwhile(n, s), freshReads) && Decide(o, last).Rest?
      requires FlightAt(meanwhile(n, s).flights, key) == Some(OwnerListed(o, last))
      ensures Ready(key, None, n, s, RestOwner(key), SetFlight(meanwhile(n, s), key, Ended(Done)))
    {
      StepReady(key, None, n, s, RestOwner(key), SetFlight(meanwhile(n, s), key, Ended(Done)));
    }

    /** The reconcile of an owner ends without a call. */
    method Rest(key: Key, ghost o: Owner, ghost last: Option<Execution>)
      requires Working(key, None) && Polite(key) && At(key, OwnerListed(o, last)) && Decide(o, last).Rest?
      modifies this
      ensures After(key, None, old(first), old(from), old(taken) + [RestOwner(key)]) && At(key, Ended(Done))
      ensures s.owners == meanwhile(old(calls), old(s)).owners
    {
      var m := Meet(key);
      RestReady(key, calls, s, o, last);
      Take(key, None, RestOwner(key), SetFlight(m, key, Ended(Done)));
    }

    // ---------- executions ----------

    lemma GetExecutionReady(key: Key, image: Option<string>, n: nat, s: State)
      requires Arrived(meanwhile(n, s), freshReads) && key.kind == ExecutionKind
      requires FlightAt(meanwhile(n, s).flights, key) == Some(Popped)
      ensures var m := meanwhile(n, s);
              if fails(n) then Ready(key, image, n, s, Fail(key), SetFlight(m, key, Ended(Error)))
              else Ready(key, image, n, s, Action.GetExecution(key), AfterGetExecution(m, key))
    {
      if fails(n) {
        FailReady(key, image, n, s);
      } else {
        StepReady(key, image, n, s, Action.GetExecution(key), AfterGetExecution(meanwhile(n, s), key));
      }
    }

    method GetExecution(key: Key, ghost image: Option<string>) returns (r: Reply<Execution>)
      requires Working(key, image) && Polite(key) && key.kind == ExecutionKind && At(key, Popped)
      modifies this
      ensures After(key, image, old(first), old(from), old(taken)
              + [if r.Fault? then Fail(key) else Action.GetExecution(key)])
      ensures var executions := meanwhile(old(calls), old(s)).executions;
              && (r.Found? ==> At(key, ExecGot(r.value)) && key in executions && r.value == executions[key])
              && (r.NotFound? ==> At(key, Ended(Done)) && key !in executions)
      ensures (r.Fault? <==> fails(old(calls))) && (r.Fault? ==> At(key, Ended(Error)))
    {
      var m := Meet(key);
      GetExecutionReady(key, image, calls, s);
      if fails(calls) {
        r := Fault;
        Abort(key, image, m);
      } else {
        r := if key in m.executions then Found(m.executions[key]) else NotFound;
        Take(key, image, Action.GetExecution(key), AfterGetExecution(m, key));
      }
    }

    lemma ListJobsReady(key: Key, image: Option<string>, n: nat, s: State, x: Execution, view: Jobs, items: seq<Job>)
      requires Arrived(meanwhile(n, s), freshReads) && FlightAt(meanwhile(n, s).flights, key) == Some(ExecGot(x))
      requires view in meanwhile(n, s).log.views && (freshReads ==> view == meanwhile(n, s).jobs)
      requires IsListing(view, x.meta.key.ns, items)
      ensures var m := meanwhile(n, s);
              if fails(n) then Ready(key, image, n, s, Fail(key), SetFlight(m, key, Ended(Error)))
              else Ready(key, image, n, s, Action.ListJobs(key, view, items), AfterListJobs(m, key, items))
    {
      if fails(n) {
        FailReady(key, image, n, s);
      } else {
        JobsListedReady(key, image, n, s, x, view, items);
      }
    }

    lemma JobsListedReady(
        key: Key, image: Option<string>, n: nat, s: State, x: Execution, view: Jobs, items: seq<Job>)
      requires Arrived(meanwhile(n, s), freshReads) && FlightAt(meanwhile(n, s).flights, key) == Some(ExecGot(x))
      requires view in meanwhile(n, s).log.views && (freshReads ==> view == meanwhile(n, s).jobs)
      requires IsListing(view, x.meta.key.ns, items) && !fails(n)
      ensures Ready(key, image, n, s, Action.ListJobs(key, view, items), AfterListJobs(meanwhile(n, s), key, items))
    {
      StepReady(key, image, n, s, Action.ListJobs(key, view, items), AfterListJobs(meanwhile(n, s), key, items));
    }

    /** The Jobs of the namespace: as they are, or, without fresh reads, as they were at any earlier time. */
    method AnswerJobs(m: State, ns: string) returns (view: Jobs, items: seq<Job>)
      requires Arrived(m, freshReads)
      ensures view in m.log.views && (freshReads ==> view == m.jobs) && IsListing(view, ns, items)
    {
      ViewsKeyed(m, freshReads);
      view := m.jobs;
      if !freshReads {
        view :| view in m.log.views;
      }
      items := ListOf(view, ns);
    }

    method ListJobs(key: Key, x: Execution, ghost image: Option<string>)
      returns (r: Reply<seq<Job>>, ghost view: Jobs)
      requires Working(key, image) && Polite(key) && At(key, ExecGot(x))
      modifies this
      ensures !r.NotFound?
      ensures After(key, image, old(first), old(from), old(taken)
              + [if r.Fault? then Fail(key) else Action.ListJobs(key, view, r.value)])
      ensures r.Found? ==>
                var owned := Sort(Owned(r.value, x.meta.uid));
                At(key, if owned == [] then ExecJobless(x) else ExecJob(x, owned[0], owned[1..]))
      ensures (r.Fault? <==> fails(old(calls))) && (r.Fault? ==> At(key, Ended(Error)))
    {
      var m := Meet(key);
      var jobs, items := AnswerJobs(m, x.meta.key.ns);
      view := jobs;
      ListJobsReady(key, image, calls, s, x, view, items);
      if fails(calls) {
        r := Fault;
        Abort(key, image, m);
      } else {
        r := Found(items);
        Take(key, image, Action.ListJobs(key, view, items), AfterListJobs(m, key, items));
      }
    }

    lemma PruneJobReady(key: Key, image: Option<string>, n: nat, s: State, x: Execution, latest: Job, stale: seq<Job>)
      requires Arrived(meanwhile(n, s), freshReads) && stale != []
      requires FlightAt(meanwhile(n, s).flights, key) == Some(ExecJob(x, latest, stale))
      ensures Ready(key, image, n, s, PruneJob(key, !fails(n)), AfterPruneJob(meanwhile(n, s), key, !fails(n)))
    {
      StepReady(key, image, n, s, PruneJob(key, !fails(n)), AfterPruneJob(meanwhile(n, s), key, !fails(n)));
    }

    /** Deletes by name; a Job that has already gone counts as deleted. */
    method DeleteJob(
        key: Key, ghost image: Option<string>, ghost x: Execution, ghost latest: Job, ghost stale: seq<Job>, j: Job)
      returns (failed: bool)
      requires Working(key, image) && Polite(key) && At(key, ExecJob(x, latest, stale)) && stale != [] && stale[0] == j
      modifies this
      ensures After(key, image, old(first), old(from), old(taken) + [PruneJob(key, !failed)])
      ensures failed == fails(old(calls))
      ensures At(key, ExecJob(x, latest, stale[1..]))
    {
      var m := Meet(key);
      PruneJobReady(key, image, calls, s, x, latest, stale);
      failed := fails(calls);
      Take(key, image, PruneJob(key, !failed), AfterPruneJob(m, key, !failed));
    }

    lemma ReadModuleReady(key: Key, image: Option<string>, n: nat, s: State, x: Execution)
      requires Arrived(meanwhile(n, s), freshReads) && FlightAt(meanwhile(n, s).flights, key) == Some(ExecJobless(x))
      ensures var m := meanwhile(n, s);
              if fails(n) || ModuleKeyOf(x.spec) !in m.owners
              then Ready(key, image, n, s, Fail(key), SetFlight(m, key, Ended(Error)))
              else Ready(key, image, n, s, Action.ReadModule(key), AfterReadModule(m, key))
    {
      if fails(n) || ModuleKeyOf(x.spec) !in meanwhile(n, s).owners {
        FailReady(key, image, n, s);
      } else {
        StepReady(key, image, n, s, Action.ReadModule(key), AfterReadModule(meanwhile(n, s), key));
      }
    }

    /** Gets the module an execution refers to. Not finding it is an error to the caller. */
    method ReadModule(key: Key, x: Execution, name: ModuleRef, ghost image: Option<string>)
      returns (r: Reply<Owner>)
      requires Working(key, image) && Polite(key) && At(key, ExecJobless(x)) && name == x.spec.moduleRef
      modifies this
      ensures After(key, image, old(first), old(from), old(taken)
              + [if r.Found? then Action.ReadModule(key) else Fail(key)])
      ensures r.Found? ==> At(key, ExecModule(x, r.value)) && r.value.spec.ModuleSpec?
      ensures !r.Found? ==> At(key, Ended(Error))
      ensures r.Found? <==> !fails(old(calls)) && ModuleKeyOf(x.spec) in meanwhile(old(calls), old(s)).owners
    {
      var m := Meet(key);
      ReadModuleReady(key, image, calls, s, x);
      var k := Key(ModuleKind, name.ns, name.name);
      if fails(calls) || k !in m.owners {
        r := if fails(calls) then Fault else NotFound;
        Abort(key, image, m);
      } else {
        ModulesAreModules(m, k, freshReads);
        r := Found(m.owners[k]);
        Take(key, image, Action.ReadModule(key), AfterReadModule(m, key));
      }
    }

    lemma GiveUpReady(key: Key, n: nat, s: State, x: Execution, mod: Owner)
      requires Arrived(meanwhile(n, s), freshReads)
      requires FlightAt(meanwhile(n, s).flights, key) == Some(ExecModule(x, mod))
      ensures Ready(key, None, n, s, Fail(key), SetFlight(meanwhile(n, s), key, Ended(Error)))
    {
      FailReady(key, None, n, s);
    }

    /** Without settings there is no Job to build, and the reconcile returns their error. */
    method GiveUp(key: Key, ghost x: Execution, ghost mod: Owner)
      requires Working(key, None) && Polite(key) && At(key, ExecModule(x, mod))
      modifies this
      ensures After(key, None, old(first), old(from), old(taken) + [Fail(key)]) && At(key, Ended(Error))
    {
      var m := Meet(key);
      GiveUpReady(key, calls, s, x, mod);
      Abort(key, None, m);
    }

    /** The server accepts this name and uid for the execution's next Job. */
    predicate GrantsJob(n: nat, m: State, ns: string, uid: Uid) {
      && grants(n).0 !in m.log.home && !Used(m.log.home, Key(JobKind, ns, grants(n).1))
      && (uid in m.log.newest ==> m.log.newest[uid].created < m.now)
    }

    lemma CreateJobReady(key: Key, image: string, n: nat, s: State, x: Execution, mod: Owner)
      requires Arrived(meanwhile(n, s), freshReads) && mod.spec.ModuleSpec?
      requires FlightAt(meanwhile(n, s).flights, key) == Some(ExecModule(x, mod))
      ensures var m := meanwhile(n, s);
              var (uid, name) := grants(n);
              if !fails(n) && GrantsJob(n, m, x.meta.key.ns, x.meta.uid)
              then Ready(key, Some(image), n, s, Action.CreateJob(key, uid, name, image),
                         AfterCreateJob(m, key, uid, name, image))
              else Ready(key, Some(image), n, s, Fail(key), SetFlight(m, key, Ended(Error)))
    {
      var m := meanwhile(n, s);
      var (uid, name) := grants(n);
      if !fails(n) && GrantsJob(n, m, x.meta.key.ns, x.meta.uid) {
        GrantedJobReady(key, image, n, s, x, mod);
      } else {
        RefusedJobReady(key, image, n, s, x, mod);
      }
    }

    lemma GrantedJobReady(key: Key, image: string, n: nat, s: State, x: Execution, mod: Owner)
      requires Arrived(meanwhile(n, s), freshReads) && mod.spec.ModuleSpec? && !fails(n)
      requires FlightAt(meanwhile(n, s).flights, key) == Some(ExecModule(x, mod))
      requires GrantsJob(n, meanwhile(n, s), x.meta.key.ns, x.meta.uid)
      ensures Ready(key, Some(image), n, s, Action.CreateJob(key, grants(n).0, grants(n).1, image),
                    AfterCreateJob(meanwhile(n, s), key, grants(n).0, grants(n).1, image))
    {
      var t := AfterCreateJob(meanwhile(n, s), key, grants(n).0, grants(n).1, image);
      GrantedJobFits(key, image, n, meanwhile(n, s), x, mod);
      StepReady(key, Some(image), n, s, Action.CreateJob(key, grants(n).0, grants(n).1, image), t);
    }

    lemma GrantedJobFits(key: Key, image: string, n: nat, m: State, x: Execution, mod: Owner)
      requires mod.spec.ModuleSpec? && !fails(n) && FlightAt(m.flights, key) == Some(ExecModule(x, mod))
      requires GrantsJob(n, m, x.meta.key.ns, x.meta.uid)
      ensures Fits(key, Some(image), n, m, Action.CreateJob(key, grants(n).0, grants(n).1, image))
    {
      assert CanCreateJob(m, key, grants(n).0, grants(n).1);
      assert !MustFail(key, Some(image), n, m);
    }

    lemma RefusedJobReady(key: Key, image: string, n: nat, s: State, x: Execution, mod: Owner)
      requires Arrived(meanwhile(n, s), freshReads) && mod.spec.ModuleSpec?
      requires FlightAt(meanwhile(n, s).flights, key) == Some(ExecModule(x, mod))
      requires fails(n) || !GrantsJob(n, meanwhile(n, s), x.meta.key.ns, x.meta.uid)
      ensures Ready(key, Some(image), n, s, Fail(key), SetFlight(meanwhile(n, s), key, Ended(Error)))
    {
      FailReady(key, Some(image), n, s);
    }

    method CreateJob(key: Key, ghost x: Execution, ghost mod: Owner, ghost image: string, d: JobDraft)
      returns (created: bool)
      requires Working(key, Some(image)) && Polite(key) && At(key, ExecModule(x, mod)) && JobDraftFor(x, mod, image, d)
      modifies this
      ensures var n := old(calls);
              var m := meanwhile(n, old(s));
              var j := NewJob(x, mod, image, grants(n).0, grants(n).1, m.now);
              && (created <==> !fails(n) && GrantsJob(n, m, x.meta.key.ns, x.meta.uid))
              && After(key, Some(image), old(first), old(from), old(taken)
                 + [if created then Action.CreateJob(key, grants(n).0, grants(n).1, image) else Fail(key)])
              && s.jobs == if created then m.jobs[j.meta.key := j] else m.jobs
      ensures At(key, Ended(if created then RequeueNow else Error))
    {
      var m := Meet(key);
      var (uid, name) := grants(calls);
      var j := StoredJob(d, uid, name, m.now);
      assert j == NewJob(x, mod, image, uid, name, m.now);
      CreateJobReady(key, image, calls, s, x, mod);
      created := !fails(calls) && GrantsJob(calls, m, d.ns, d.controller.uid);
      if created {
        var jobs := m.jobs[j.meta.key := j];
        Take(key, Some(image), Action.CreateJob(key, uid, name, image),
             SetFlight(PutJobs(m, jobs, Wakes(j.meta)), key, Ended(RequeueNow)).(
          log := m.log.(home := m.log.home[uid := j.meta.key], made := m.log.made[j.meta.key := j.meta],
                        newest := m.log.newest[d.controller.uid := j.meta], views := m.log.views + {jobs})));
      } else {
        Abort(key, Some(image), m);
      }
    }

    lemma UpdateExecutionReady(key: Key, image: Option<string>, n: nat, s: State, x: Execution, latest: Job)
      requires Arrived(meanwhile(n, s), freshReads)
      requires FlightAt(meanwhile(n, s).flights, key) == Some(ExecJob(x, latest, []))
      ensures var m := meanwhile(n, s);
              if fails(n) && NextStatus(x.status, latest) != x.status
              then Ready(key, image, n, s, Fail(key), SetFlight(m, key, Ended(Error)))
              else Ready(key, image, n, s, UpdateExecution(key), AfterUpdateExecution(m, key))
    {
      if fails(n) && NextStatus(x.status, latest) != x.status {
        FailReady(key, image, n, s);
      } else {
        StatusReady(key, image, n, s, x, latest);
      }
    }

    lemma StatusReady(key: Key, image: Option<string>, n: nat, s: State, x: Execution, latest: Job)
      requires Arrived(meanwhile(n, s), freshReads) && (!fails(n) || NextStatus(x.status, latest) == x.status)
      requires FlightAt(meanwhile(n, s).flights, key) == Some(ExecJob(x, latest, []))
      ensures Ready(key, image, n, s, UpdateExecution(key), AfterUpdateExecution(meanwhile(n, s), key))
    {
      assert !MustFail(key, image, n, meanwhile(n, s));
      StepReady(key, image, n, s, UpdateExecution(key), AfterUpdateExecution(meanwhile(n, s), key));
    }

    /** A status update carrying the version of x; a conflict is an error to the caller. */
    method UpdateExecutionStatus(
        key: Key, x: Execution, ghost latest: Job, status: ExecutionStatus, ghost image: Option<string>)
      returns (applied: bool)
      requires Working(key, image) && Polite(key) && At(key, ExecJob(x, latest, [])) && x.meta.key == key
      requires status == NextStatus(x.status, latest) && status != x.status
      modifies this
      ensures After(key, image, old(first), old(from), old(taken)
              + [if fails(old(calls)) then Fail(key) else UpdateExecution(key)])
      ensures var m := meanwhile(old(calls), old(s));
              && (applied <==> !fails(old(calls)) && ExecCurrent(m, x))
              && s.executions ==
                 if applied then m.executions[key := x.(status := status, meta := x.meta.(version := m.log.version))]
                 else m.executions
      ensures At(key, Ended(if applied then ExecOutcome(status.phase) else Error))
    {
      var m := Meet(key);
      UpdateExecutionReady(key, image, calls, s, x, latest);
      if fails(calls) {
        applied := false;
        Abort(key, image, m);
      } else {
        applied := key in m.executions && m.executions[key].meta.version == x.meta.version;
        var t := if applied then PutExecution(m, x.(status := status)) else m;
        Take(key, image, UpdateExecution(key),
            SetFlight(t, key, Ended(if applied then ExecOutcome(status.phase) else Error)));
      }
    }

    /** The reconcile of an execution ends without a call. */
    method Unchanged(key: Key, x: Execution, ghost latest: Job, ghost image: Option<string>)
      requires Working(key, image) && Polite(key) && At(key, ExecJob(x, latest, []))
      requires NextStatus(x.status, latest) == x.status
      modifies this
      ensures After(key, image, old(first), old(from), old(taken) + [UpdateExecution(key)])
      ensures At(key, Ended(ExecOutcome(x.status.phase)))
      ensures s.executions == meanwhile(old(calls), old(s)).executions
    {
      var m := Meet(key);
      UpdateExecutionReady(key, image, calls, s, x, latest);
      Take(key, image, UpdateExecution(key), SetFlight(m, key, Ended(ExecOutcome(x.status.phase))));
    }
  }
}
