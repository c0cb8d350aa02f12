/** Where endless runs end up: with a quiet environment and fair reconciles, every owner comes to show its execution. */
module Liveness {
  import opened Basics
  import opened Objects
  import opened Decisions
  import opened Selection
  import opened Protocol
  import opened Invariants
  import opened BackSteps
  import opened BaseSteps
  import opened BaseRuns
  import opened FreshSteps
  import opened StrongRuns
  import opened Settling
  import opened Measure
  import opened WriteRanks
  import opened Termination

  // ---------- copies that are current ----------

  /** What the reconcile of k holds is what is stored. */
  ghost predicate Holds(owners: Owners, executions: Executions, newest: Newest, jobs: Jobs, k: Key, f: Flight) {
    match f
    case OwnerGot(o) => k in owners && owners[k] == o
    case OwnerListed(o, last) => k in owners && owners[k] == o && IsNewest(executions, o.meta.uid, last)
    case ExecGot(x) => k in executions && executions[k] == x
    case ExecJobless(x) => k in executions && executions[k] == x && Jobless(jobs, x.meta.uid)
    case ExecModule(x, _) => k in executions && executions[k] == x && Jobless(jobs, x.meta.uid)
    case ExecJob(x, latest, _) =>
      k in executions && executions[k] == x && HasJob(newest, jobs, x.meta.uid)
          && latest == CurrentJob(newest, jobs, x.meta.uid)
    case _ => true
  }

  ghost predicate HoldsAt(s: State, k: Key) {
    k in s.flights ==> Holds(s.owners, s.executions, s.log.newest, s.jobs, k, s.flights[k])
  }

  lemma NewestKeeps(s: State, a: Action)
    requires Enabled(s, a) && !a.CreateJob?
    ensures Apply(s, a).log.newest == s.log.newest
  {
    if ByUser(a) || ByEnvironment(a) {
      OthersKeepNewest(s, a);
    } else if ByOwnerReconcile(a) {
      OwnerReconcileKeepsNewest(s, a);
    } else {
      ExecutionReconcileKeepsNewest(s, a);
    }
  }

  lemma OthersKeepNewest(s: State, a: Action)
    requires Enabled(s, a) && (ByUser(a) || ByEnvironment(a))
    ensures Apply(s, a).log.newest == s.log.newest
  {
  }

  lemma OwnerReconcileKeepsNewest(s: State, a: Action)
    requires Enabled(s, a) && ByOwnerReconcile(a)
    ensures Apply(s, a).log.newest == s.log.newest
  {
    if a.CreateExecution? {
      CreateKeepsNewest(s, a.key, a.uid, a.name);
    } else if a.UpdateOwner? {
      MirrorKeepsNewest(s, a.key);
    }
  }

  lemma CreateKeepsNewest(s: State, key: Key, uid: Uid, name: string)
    requires CanCreateExecution(s, key, uid, name)
    ensures AfterCreateExecution(s, key, uid, name).log.newest == s.log.newest
  {
  }

  lemma MirrorKeepsNewest(s: State, key: Key)
    requires CanUpdateOwner(s, key)
    ensures AfterUpdateOwner(s, key).log.newest == s.log.newest
  {
  }

  lemma ExecutionReconcileKeepsNewest(s: State, a: Action)
    requires Enabled(s, a) && ByExecutionReconcile(a) && !a.CreateJob?
    ensures Apply(s, a).log.newest == s.log.newest
  {
    if a.PruneJob? {
      PruneKeepsNewest(s, a.key, a.deleted);
    } else if a.UpdateExecution? {
      ShowKeepsNewest(s, a.key);
    }
  }

  lemma PruneKeepsNewest(s: State, key: Key, deleted: bool)
    requires CanPrune(s, key)
    ensures AfterPruneJob(s, key, deleted).log.newest == s.log.newest
  {
  }

  lemma ShowKeepsNewest(s: State, key: Key)
    requires CanUpdateExecution(s, key)
    ensures AfterUpdateExecution(s, key).log.newest == s.log.newest
  {
  }

  lemma QueueHolds(s: State, a: Action, k: Key)
    requires Enabled(s, a) && (a.Tick? || a.Requeue? || a.Restart? || a.Pop? || a.Fail? || a.Finish?) && HoldsAt(s, k)
    ensures HoldsAt(Apply(s, a), k)
  {
    assert k in Apply(s, a).flights ==>
        (k in s.flights && Apply(s, a).flights[k] == s.flights[k]) || Bare(Apply(s, a).flights[k]);
  }

  lemma OthersLeaveFlight(s: State, a: Action, k: Key)
    requires Enabled(s, a) && (ByOwnerReconcile(a) || ByExecutionReconcile(a)) && a.key != k
    ensures k in Apply(s, a).flights <==> k in s.flights
    ensures k in s.flights ==> Apply(s, a).flights[k] == s.flights[k]
  {
    if ByOwnerReconcile(a) {
      OwnerStepLeavesFlight(s, a, k);
    } else {
      ExecutionStepLeavesFlight(s, a, k);
    }
  }

  lemma OwnerStepLeavesFlight(s: State, a: Action, k: Key)
    requires Enabled(s, a) && ByOwnerReconcile(a) && a.key != k
    ensures k in Apply(s, a).flights <==> k in s.flights
    ensures k in s.flights ==> Apply(s, a).flights[k] == s.flights[k]
  {
  }

  lemma ExecutionStepLeavesFlight(s: State, a: Action, k: Key)
    requires Enabled(s, a) && ByExecutionReconcile(a) && a.key != k
    ensures k in Apply(s, a).flights <==> k in s.flights
    ensures k in s.flights ==> Apply(s, a).flights[k] == s.flights[k]
  {
    if OnJobs(a) {
      JobStepLeavesFlight(s, a, k);
    }
  }

  lemma JobStepLeavesFlight(s: State, a: Action, k: Key)
    requires Enabled(s, a) && OnJobs(a) && a.key != k
    ensures k in Apply(s, a).flights <==> k in s.flights
    ensures k in s.flights ==> Apply(s, a).flights[k] == s.flights[k]
  {
  }

  lemma OwnReadHolds(s: State, a: Action)
    requires Front(s) && Enabled(s, a) && (a.GetOwner? || a.ListExecutions? || a.GetExecution? || a.ReadModule?)
    requires HoldsAt(s, a.key)
    ensures HoldsAt(Apply(s, a), a.key)
  {
    if a.ListExecutions? {
      OwnListFinds(s, a.key, a.executions);
    } else {
      OwnGetHolds(s, a);
    }
  }

  lemma OwnGetHolds(s: State, a: Action)
    requires Enabled(s, a) && (a.GetOwner? || a.GetExecution? || a.ReadModule?) && HoldsAt(s, a.key)
    ensures HoldsAt(Apply(s, a), a.key)
  {
  }

  lemma OwnListFinds(s: State, key: Key, items: seq<Execution>)
    requires Front(s) && CanListExecutions(s, key, items) && HoldsAt(s, key)
    ensures HoldsAt(AfterListExecutions(s, key, items), key)
  {
    ListFindsNewest(s, key, items);
  }

  lemma OwnListHolds(s: State, key: Key, items: seq<Job>)
    requires Front(s) && BackAt(s) && CanListJobs(s, key, s.jobs, items) && HoldsAt(s, key)
    ensures HoldsAt(AfterListJobs(s, key, items), key)
  {
    var x := s.flights[key].exec;
    var owned := Sort(Owned(items, x.meta.uid));
    assert FlightOk(s.log, s.owners, s.executions, key, s.flights[key]);
    assert ViewOk(s.log.made, s.jobs);
    ListedJobs(s.log, s.jobs, key, x.meta.uid, items);
    if owned != [] {
      NewestStoredIsCurrent(s.log, s.executions, s.jobs, key, x.meta.uid, owned[0]);
    }
    ListedHolds(s, key, items, owned);
  }

  lemma ListedHolds(s: State, key: Key, items: seq<Job>, owned: seq<Job>)
    requires key in s.flights && s.flights[key].ExecGot? && owned == Sort(Owned(items, s.flights[key].exec.meta.uid))
    requires key in s.executions && s.executions[key] == s.flights[key].exec
    requires var uid := s.flights[key].exec.meta.uid;
             if owned == [] then Jobless(s.jobs, uid)
             else HasJob(s.log.newest, s.jobs, uid) && owned[0] == CurrentJob(s.log.newest, s.jobs, uid)
    ensures HoldsAt(AfterListJobs(s, key, items), key)
  {
  }

  lemma OwnEndHolds(s: State, a: Action)
    requires a.CreateExecution? || a.UpdateOwner? || a.RestOwner? || a.CreateJob? || a.PruneJob? || a.UpdateExecution?
    requires Enabled(s, a) && Store(Apply(s, a)) == Store(s) && HoldsAt(s, a.key)
    ensures HoldsAt(Apply(s, a), a.key)
  {
    if a.PruneJob? {
      PruneHolds(s, a);
    } else {
      LastStepHolds(s, a);
    }
  }

  lemma PruneHolds(s: State, a: Action)
    requires Enabled(s, a) && a.PruneJob? && Store(Apply(s, a)) == Store(s) && HoldsAt(s, a.key)
    ensures HoldsAt(Apply(s, a), a.key)
  {
    ExecutionReconcileKeepsNewest(s, a);
  }

  /** A step that ends the reconcile leaves it with no copies. */
  lemma LastStepHolds(s: State, a: Action)
    requires a.CreateExecution? || a.UpdateOwner? || a.RestOwner? || a.CreateJob? || a.UpdateExecution?
    requires Enabled(s, a)
    ensures HoldsAt(Apply(s, a), a.key)
  {
    LastStepEnds(s, a);
  }

  lemma LastStepEnds(s: State, a: Action)
    requires a.CreateExecution? || a.UpdateOwner? || a.RestOwner? || a.CreateJob? || a.UpdateExecution?
    requires Enabled(s, a)
    ensures a.key in Apply(s, a).flights && Apply(s, a).flights[a.key].Ended?
  {
    if a.CreateJob? || a.UpdateExecution? {
      LastJobStepEnds(s, a);
    }
  }

  lemma LastJobStepEnds(s: State, a: Action)
    requires (a.CreateJob? || a.UpdateExecution?) && Enabled(s, a)
    ensures a.key in Apply(s, a).flights && Apply(s, a).flights[a.key].Ended?
  {
  }

  lemma ReconcileHolds(s: State, a: Action)
    requires Front(s) && BackAt(s) && Enabled(s, a) && FreshRead(s, a)
    requires ByOwnerReconcile(a) || ByExecutionReconcile(a)
    requires Store(Apply(s, a)) == Store(s) && HoldsAt(s, a.key)
    ensures HoldsAt(Apply(s, a), a.key)
  {
    if a.ListJobs? {
      OwnListHolds(s, a.key, a.jobs);
    } else if a.GetOwner? || a.ListExecutions? || a.GetExecution? || a.ReadModule? {
      OwnReadHolds(s, a);
    } else {
      OwnEndHolds(s, a);
    }
  }

  lemma JobWasStored(s: State, a: Action)
    requires BackAt(s) && Enabled(s, a) && a.CreateJob?
    ensures Store(Apply(s, a)) != Store(s)
  {
    var j := NewJob(s.flights[a.key].exec, s.flights[a.key].mod, a.defaultImage, a.uid, a.name, s.now);
    NewNameUnmade(s.log, j.meta.key);
    NotStored(s.log, s.jobs, j.meta.key);
    assert j.meta.key in Apply(s, a).jobs;
  }

  lemma NewestStep(s: State, a: Action)
    requires BackAt(s) && Enabled(s, a) && Store(Apply(s, a)) == Store(s)
    ensures Apply(s, a).log.newest == s.log.newest
  {
    if a.CreateJob? {
      JobWasStored(s, a);
    }
    NewestKeeps(s, a);
  }

  /** While nothing is written, a reconcile that holds what is stored goes on doing so. */
  lemma StepHolds(s: State, a: Action, k: Key)
    requires Base(s) && Enabled(s, a) && Quiet(a) && FreshRead(s, a) && Store(Apply(s, a)) == Store(s) && HoldsAt(s, k)
    ensures HoldsAt(Apply(s, a), k) && Apply(s, a).log.newest == s.log.newest
  {
    NewestStep(s, a);
    if !ByOwnerReconcile(a) && !ByExecutionReconcile(a) {
      QueueHolds(s, a, k);
    } else if a.key == k {
      ReconcileHolds(s, a);
    } else {
      OthersLeaveFlight(s, a, k);
    }
  }

  // ---------- a completed reconcile ----------

  /** The last step of a reconcile of k that does not fail. */
  predicate Completes(a: Action, k: Key) {
    (a.CreateExecution? || a.UpdateOwner? || a.RestOwner? || a.CreateJob? || a.UpdateExecution?) && a.key == k
  }

  predicate Idle(s: State, k: Key) {
    k !in s.dirty && k !in s.flights
  }

  /** Reconciling k would write nothing. */
  ghost predicate SettledAt(s: State, k: Key) {
    && (k in s.owners ==> OwnerSettled(s.executions, s.owners[k]))
    && (k in s.executions ==> InSync(s.log.newest, s.jobs, s.executions[k]))
  }

  lemma IdleSettles(s: State, k: Key)
    requires Strong(s) && Idle(s, k)
    ensures SettledAt(s, k)
  {
    if k in s.owners {
      assert OwnerAwake(s.executions, s.owners[k], FlightAt(s.flights, k));
    }
    if k in s.executions {
      CalmExecution(s, k);
    }
  }

  lemma RestSettles(s: State, k: Key)
    requires Front(s) && CanRest(s, k) && HoldsAt(s, k)
    ensures SettledAt(s, k)
  {
    OwnerKeyed(s, k);
  }

  lemma MirrorWrites(s: State, k: Key)
    requires Front(s) && CanUpdateOwner(s, k) && HoldsAt(s, k)
    ensures Store(AfterUpdateOwner(s, k)) != Store(s)
  {
    OwnerHeld(s, k);
    assert OwnerOk(s.log, k, s.owners[k]);
    assert AfterUpdateOwner(s, k).owners[k].meta.version == s.log.version;
  }

  lemma CreateWrites(s: State, key: Key, uid: Uid, name: string)
    requires Front(s) && CanCreateExecution(s, key, uid, name)
    ensures Store(AfterCreateExecution(s, key, uid, name)) != Store(s)
  {
    var e := CreatedExecution(s, key, uid, name);
    assert e.meta.key in AfterCreateExecution(s, key, uid, name).executions;
  }

  lemma ShowWrites(s: State, k: Key)
    requires Front(s) && CanUpdateExecution(s, k) && HoldsAt(s, k)
    ensures var x := s.flights[k].exec;
            NextStatus(x.status, s.flights[k].latest) != x.status ==> Store(AfterUpdateExecution(s, k)) != Store(s)
  {
    ExecutionHeld(s, k);
    assert ExecOk(s.log, k, s.executions[k]);
    if NextStatus(s.flights[k].exec.status, s.flights[k].latest) != s.flights[k].exec.status {
      assert AfterUpdateExecution(s, k).executions[k].meta.version == s.log.version;
    }
  }

  lemma ShowSettles(s: State, k: Key)
    requires Front(s) && CanUpdateExecution(s, k) && HoldsAt(s, k)
    requires Store(AfterUpdateExecution(s, k)) == Store(s)
    ensures SettledAt(s, k)
  {
    ShowWrites(s, k);
    assert ExecOk(s.log, k, s.executions[k]);
    NoOwnerThere(s, k);
  }

  /** A reconcile that held what is stored, and completes without writing, had nothing to write. */
  lemma CompleteSettles(s: State, a: Action, k: Key)
    requires Base(s) && Enabled(s, a) && Completes(a, k) && HoldsAt(s, k) && Store(Apply(s, a)) == Store(s)
    ensures SettledAt(s, k)
  {
    assert !a.CreateExecution? by { if a.CreateExecution? { CreateWrites(s, k, a.uid, a.name); } }
    assert !a.CreateJob? by { if a.CreateJob? { JobWasStored(s, a); } }
    assert !a.UpdateOwner? by { if a.UpdateOwner? { MirrorWrites(s, k); } }
    if a.RestOwner? {
      RestSettles(s, k);
    } else {
      ShowSettles(s, k);
    }
  }

  // ---------- fair runs ----------

  /** After the n-th step the reconcile of k completes, or k is idle. */
  ghost predicate ServedAfter(states: nat -> State, steps: nat -> Action, k: Key, n: nat) {
    exists m: nat :: m >= n && (Idle(states(m), k) || Completes(steps(m), k))
  }

  /** From then on, k is served again and again. */
  ghost predicate Served(states: nat -> State, steps: nat -> Action, from: nat, k: Key) {
    forall n: nat {:trigger ServedAfter(states, steps, k, n)} :: n >= from ==> ServedAfter(states, steps, k, n)
  }

  /** l is the key of the newest execution of the owner at k. */
  ghost predicate NewestAt(owners: Owners, executions: Executions, k: Key, l: Key) {
    && k in owners && l in executions && executions[l].meta.key == l
    && IsNewest(executions, owners[k].meta.uid, Some(executions[l]))
  }

  /** As long as there is an owner at k, it is served, and so is whatever is its newest execution. */
  ghost predicate FairFor(states: nat -> State, steps: nat -> Action, k: Key) {
    forall n: nat, l {:trigger ServedAfter(states, steps, l, n)} ::
      (l == k && k in states(n).owners) || NewestAt(states(n).owners, states(n).executions, k, l) ==>
        ServedAfter(states, steps, l, n)
  }

  /** Every owner and every execution is served. */
  ghost predicate Fair(states: nat -> State, steps: nat -> Action) {
    forall n: nat, k {:trigger ServedAfter(states, steps, k, n)} ::
      k in states(n).owners || k in states(n).executions ==> ServedAfter(states, steps, k, n)
  }

  lemma {:induction false} AllStrong(states: nat -> State, steps: nat -> Action, n: nat)
    requires QuietRun(states, steps) && Strong(states(0))
    ensures Strong(states(n))
  {
    if n > 0 {
      AllStrong(states, steps, n - 1);
      NextStrong(states, steps, n - 1);
    }
  }

  lemma NextStrong(states: nat -> State, steps: nat -> Action, n: nat)
    requires QuietRun(states, steps) && Strong(states(n))
    ensures Strong(states(n + 1))
  {
    StepStrong(states(n), steps(n));
  }

  lemma {:induction false} HoldsFrom(states: nat -> State, steps: nat -> Action, from: nat, m: nat, n: nat, k: Key)
    requires QuietRun(states, steps) && Strong(states(0)) && SettledFrom(states, from) && from <= m <= n
    requires HoldsAt(states(m), k)
    ensures HoldsAt(states(n), k)
    decreases n
  {
    if m < n {
      HoldsFrom(states, steps, from, m, n - 1, k);
      HoldsNext(states, steps, from, n - 1, k);
    }
  }

  lemma HoldsNext(states: nat -> State, steps: nat -> Action, from: nat, n: nat, k: Key)
    requires QuietRun(states, steps) && Strong(states(0)) && SettledFrom(states, from) && from <= n
    requires HoldsAt(states(n), k)
    ensures HoldsAt(states(n + 1), k)
  {
    AllBase(states, steps, n);
    StepHolds(states(n), steps(n), k);
  }

  lemma {:induction false} NewestFrom(states: nat -> State, steps: nat -> Action, from: nat, n: nat)
    requires QuietRun(states, steps) && Strong(states(0)) && SettledFrom(states, from) && from <= n
    ensures states(n).log.newest == states(from).log.newest
    decreases n
  {
    if from < n {
      NewestFrom(states, steps, from, n - 1);
      NewestNext(states, steps, from, n - 1);
    }
  }

  lemma NewestNext(states: nat -> State, steps: nat -> Action, from: nat, n: nat)
    requires QuietRun(states, steps) && Strong(states(0)) && SettledFrom(states, from) && from <= n
    ensures states(n + 1).log.newest == states(n).log.newest
  {
    AllBase(states, steps, n);
    NewestStep(states(n), steps(n));
  }

  lemma CompletedBare(s: State, a: Action, k: Key)
    requires Enabled(s, a) && Completes(a, k)
    ensures HoldsAt(Apply(s, a), k)
  {
    LastStepHolds(s, a);
  }

  lemma IdleOnce(states: nat -> State, steps: nat -> Action, m: nat, k: Key)
    requires QuietRun(states, steps) && Strong(states(0)) && Idle(states(m), k)
    ensures SettledAt(states(m), k)
  {
    AllStrong(states, steps, m);
    IdleSettles(states(m), k);
  }

  lemma CompletedOnce(states: nat -> State, steps: nat -> Action, m: nat, k: Key)
    requires QuietRun(states, steps) && Completes(steps(m), k)
    ensures HoldsAt(states(m + 1), k)
  {
    CompletedBare(states(m), steps(m), k);
  }

  lemma CompletedAgain(states: nat -> State, steps: nat -> Action, from: nat, m: nat, k: Key)
    requires QuietRun(states, steps) && Strong(states(0)) && SettledFrom(states, from) && from <= m
    requires HoldsAt(states(m), k) && Completes(steps(m), k)
    ensures SettledAt(states(m), k)
  {
    AllBase(states, steps, m);
    assert Store(states(m + 1)) == Store(states(from)) == Store(states(m));
    CompleteSettles(states(m), steps(m), k);
  }

  lemma ServedNext(states: nat -> State, steps: nat -> Action, from: nat, n: nat, k: Key) returns (m: nat)
    requires Served(states, steps, from, k) && from <= n
    ensures m >= n && (Idle(states(m), k) || Completes(steps(m), k))
  {
    assert ServedAfter(states, steps, k, n);
    m :| m >= n && (Idle(states(m), k) || Completes(steps(m), k));
  }

  lemma ServedHolding(states: nat -> State, steps: nat -> Action, from: nat, first: nat, m: nat, k: Key)
    requires QuietRun(states, steps) && Strong(states(0)) && SettledFrom(states, from) && from <= first <= m
    requires HoldsAt(states(first), k) && Completes(steps(m), k)
    ensures SettledAt(states(m), k)
  {
    HoldsFrom(states, steps, from, first, m, k);
    CompletedAgain(states, steps, from, m, k);
  }

  /** Some moment after the store has come to rest, k is settled: at the latest when it completes once more. */
  lemma OnceSettled(states: nat -> State, steps: nat -> Action, from: nat, k: Key) returns (m: nat)
    requires QuietRun(states, steps) && Strong(states(0)) && SettledFrom(states, from)
    requires Served(states, steps, from, k)
    ensures m >= from && SettledAt(states(m), k)
  {
    m := ServedNext(states, steps, from, from, k);
    if Completes(steps(m), k) {
      CompletedOnce(states, steps, m, k);
      m := SettledAfter(states, steps, from, m + 1, k);
    } else {
      IdleOnce(states, steps, m, k);
    }
  }

  /** The same, from a moment when the reconcile of k holds nothing but what is stored. */
  lemma SettledAfter(states: nat -> State, steps: nat -> Action, from: nat, first: nat, k: Key) returns (m: nat)
    requires QuietRun(states, steps) && Strong(states(0)) && SettledFrom(states, from)
    requires Served(states, steps, from, k) && from <= first && HoldsAt(states(first), k)
    ensures m >= first && SettledAt(states(m), k)
  {
    m := ServedNext(states, steps, from, first, k);
    if Completes(steps(m), k) {
      ServedHolding(states, steps, from, first, m, k);
    } else {
      IdleOnce(states, steps, m, k);
    }
  }

  lemma SettledSame(s: State, t: State, k: Key)
    requires Store(t) == Store(s) && t.log.newest == s.log.newest && SettledAt(s, k)
    ensures SettledAt(t, k)
  {
  }

  /** Once the store has come to rest, every key that is served is settled. */
  lemma SettledThen(states: nat -> State, steps: nat -> Action, from: nat, n: nat, k: Key)
    requires QuietRun(states, steps) && Strong(states(0)) && SettledFrom(states, from) && n >= from
    requires Served(states, steps, from, k)
    ensures SettledAt(states(n), k)
  {
    var m := OnceSettled(states, steps, from, k);
    NewestFrom(states, steps, from, m);
    NewestFrom(states, steps, from, n);
    assert Store(states(m)) == Store(states(from)) == Store(states(n));
    SettledSame(states(m), states(n), k);
  }

  // ---------- what settled means ----------

  /**
   * e is the owner's newest execution, and the owner shows it; it is for the current generation or has not
   * finished, and has the phase its Job calls for. When that Job has finished, e is for the current generation.
   */
  ghost predicate Converged(s: State, o: Owner, e: Execution) {
    && IsNewest(s.executions, o.meta.uid, Some(e)) && (Stamp(e) == o.meta.generation || !IsTerminal(e.status.phase))
    && o.status.lastExecution == e.meta.key.name && o.status.phase == e.status.phase
    && ReportsJob(s, e)
    && (JobFinished(CurrentJob(s.log.newest, s.jobs, e.meta.uid).status) ==> Shows(s, o, e))
  }

  ghost predicate OwnerConverged(s: State, k: Key) {
    k in s.owners ==> exists e: Execution :: Converged(s, s.owners[k], e)
  }

  /** What a settled owner rests on. */
  lemma RestsOn(s: State, k: Key) returns (e: Execution)
    requires Front(s) && k in s.owners && SettledAt(s, k)
    ensures NewestAt(s.owners, s.executions, k, e.meta.key) && s.executions[e.meta.key] == e
    ensures Stamp(e) == s.owners[k].meta.generation || !IsTerminal(e.status.phase)
    ensures s.owners[k].status.lastExecution == e.meta.key.name && s.owners[k].status.phase == e.status.phase
  {
    var last :| IsNewest(s.executions, s.owners[k].meta.uid, last) && Decide(s.owners[k], last).Rest?;
    e := last.value;
    assert ExecOk(s.log, e.meta.key, e) && OwnerOk(s.log, k, s.owners[k]);
    RestExactly(s.owners[k], last);
  }

  lemma SettledConverges(s: State, k: Key, e: Execution)
    requires NewestAt(s.owners, s.executions, k, e.meta.key) && s.executions[e.meta.key] == e
    requires Stamp(e) == s.owners[k].meta.generation || !IsTerminal(e.status.phase)
    requires s.owners[k].status.lastExecution == e.meta.key.name && s.owners[k].status.phase == e.status.phase
    requires SettledAt(s, e.meta.key)
    ensures OwnerConverged(s, k)
  {
    StatusExactly(e.status, e.status, CurrentJob(s.log.newest, s.jobs, e.meta.uid));
    assert Converged(s, s.owners[k], e);
  }

  lemma OwnerServed(states: nat -> State, steps: nat -> Action, from: nat, n: nat, k: Key)
    requires SettledFrom(states, from) && FairFor(states, steps, k) && from <= n && k in states(n).owners
    ensures Served(states, steps, from, k)
  {
    forall i: nat | i >= from ensures ServedAfter(states, steps, k, i) {
      assert Store(states(i)) == Store(states(from)) == Store(states(n));
    }
  }

  lemma NewestServed(states: nat -> State, steps: nat -> Action, from: nat, n: nat, k: Key, l: Key)
    requires SettledFrom(states, from) && FairFor(states, steps, k) && from <= n
    requires NewestAt(states(n).owners, states(n).executions, k, l)
    ensures Served(states, steps, from, l)
  {
    forall i: nat | i >= from ensures ServedAfter(states, steps, l, i) {
      assert Store(states(i)) == Store(states(from)) == Store(states(n));
      assert NewestAt(states(i).owners, states(i).executions, k, l);
    }
  }

  lemma ConvergedAt(states: nat -> State, steps: nat -> Action, from: nat, n: nat, k: Key)
    requires QuietRun(states, steps) && Strong(states(0)) && SettledFrom(states, from) && n >= from
    requires FairFor(states, steps, k)
    ensures OwnerConverged(states(n), k)
  {
    if k in states(n).owners {
      OwnerServed(states, steps, from, n, k);
      SettledThen(states, steps, from, n, k);
      AllBase(states, steps, n);
      var e := RestsOn(states(n), k);
      NewestServed(states, steps, from, n, k, e.meta.key);
      SettledThen(states, steps, from, n, e.meta.key);
      SettledConverges(states(n), k, e);
    }
  }

  ghost predicate OwnerConvergedFrom(states: nat -> State, from: nat, k: Key) {
    forall n: nat :: n >= from ==> OwnerConverged(states(n), k)
  }

  /**
   * Eventual convergence of one owner: in every endless quiet run in which its key, and the key of its newest
   * execution, are again and again idle or reconciled without a failure, from some point on nothing changes, and
   * the owner shows its newest execution, which is for its current generation or still running; and when its
   * Job has finished, for the current one. What becomes of other keys does not matter.
   */
  lemma OwnerConverges(states: nat -> State, steps: nat -> Action, k: Key)
    requires Reachable(states(0), true) && QuietRun(states, steps) && FairFor(states, steps, k)
    ensures exists from: nat :: SettledFrom(states, from) && OwnerConvergedFrom(states, from, k)
  {
    ReachableStrong(states(0));
    WritesStop(states, steps, true);
    var from: nat :| SettledFrom(states, from);
    forall n: nat | n >= from ensures OwnerConverged(states(n), k) {
      ConvergedAt(states, steps, from, n, k);
    }
    assert OwnerConvergedFrom(states, from, k);
  }

  ghost predicate AllConvergedFrom(states: nat -> State, from: nat) {
    forall k :: OwnerConvergedFrom(states, from, k)
  }

  /** So when every key is served, all owners converge, from one point on. */
  lemma EventualConvergence(states: nat -> State, steps: nat -> Action)
    requires Reachable(states(0), true) && QuietRun(states, steps) && Fair(states, steps)
    ensures exists from: nat :: SettledFrom(states, from) && AllConvergedFrom(states, from)
  {
    ReachableStrong(states(0));
    WritesStop(states, steps, true);
    var from: nat :| SettledFrom(states, from);
    forall k ensures OwnerConvergedFrom(states, from, k) {
      assert FairFor(states, steps, k);
      forall n: nat | n >= from ensures OwnerConverged(states(n), k) {
        ConvergedAt(states, steps, from, n, k);
      }
    }
    assert AllConvergedFrom(states, from);
  }
}
