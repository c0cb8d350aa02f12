/** With fresh Job lists, every action also keeps one Job per execution, finished phases and wake-ups. */
module FreshSteps {
  import opened Basics
  import opened Objects
  import opened Decisions
  import opened Selection
  import opened Protocol
  import opened Invariants
  import opened FrontSteps
  import opened BackSteps
  import opened BaseSteps
  import opened BaseRuns

  // ---------- work queue ----------

  lemma FreshDirty(s: State, dirty: set<Key>)
    requires FreshAt(s) && s.dirty <= dirty
    ensures FreshAt(s.(dirty := dirty))
  {
  }

  lemma FreshMove(s: State, key: Key, f: Flight)
    requires FreshAt(s) && FreshFlight(s.log.newest, s.executions, s.jobs, key, f)
    requires key in s.executions && key !in s.dirty ==> ExecAwake(s.log.newest, s.jobs, s.executions[key], Some(f))
    ensures FreshAt(SetFlight(s, key, f))
  {
  }

  lemma RestartFresh(s: State)
    requires FreshAt(s)
    ensures FreshAt(AfterRestart(s))
  {
  }

  lemma PopFresh(s: State, key: Key)
    requires FreshAt(s) && CanPop(s, key)
    ensures FreshAt(Apply(s, Pop(key)))
  {
  }

  lemma FinishFresh(s: State, key: Key)
    requires FreshAt(s) && CanFinish(s, key)
    ensures FreshAt(AfterFinish(s, key))
  {
    var t := AfterFinish(s, key);
    forall k | k in t.executions && k !in t.dirty
      ensures ExecAwake(t.log.newest, t.jobs, t.executions[k], FlightAt(t.flights, k))
    {
      assert ExecAwake(s.log.newest, s.jobs, s.executions[k], FlightAt(s.flights, k));
    }
  }

  lemma NoExecutionThere(s: State, key: Key)
    requires Front(s) && IsOwnerKind(key.kind)
    ensures key !in s.executions
  {
    assert key in s.executions ==> ExecOk(s.log, key, s.executions[key]);
  }

  // ---------- executions ----------

  /** Executions may go, or change in status without a finished one becoming unfinished. */
  ghost predicate Forward(executions: Executions, after: Executions) {
    forall k :: k in after ==>
      && k in executions && SameChild(executions[k], after[k])
      && (IsTerminal(executions[k].status.phase) ==> IsTerminal(after[k].status.phase))
  }

  lemma OverlapForward(executions: Executions, after: Executions)
    requires NoOverlap(executions) && Forward(executions, after)
    ensures NoOverlap(after)
  {
    forall k, l | k in after && l in after && Siblings(after[k].meta, after[l].meta)
      && after[k].meta.created < after[l].meta.created
      ensures IsTerminal(after[k].status.phase)
    {
      assert SameChild(executions[k], after[k]) && SameChild(executions[l], after[l]);
      assert Siblings(executions[k].meta, executions[l].meta);
    }
  }

  lemma FinishedForward(executions: Executions, after: Executions, uid: Uid)
    requires ChildrenFinished(executions, uid) && Forward(executions, after)
    ensures ChildrenFinished(after, uid)
  {
    forall l | l in after && ControlledBy(after[l].meta, uid) ensures IsTerminal(after[l].status.phase) {
      assert SameChild(executions[l], after[l]);
    }
  }

  lemma FlightForward(newest: map<Uid, Meta>, executions: Executions, after: Executions, jobs: Jobs, k: Key, f: Flight)
    requires FreshFlight(newest, executions, jobs, k, f) && Forward(executions, after)
    ensures FreshFlight(newest, after, jobs, k, f)
  {
    match f
    case OwnerListed(o, last) =>
      if Decide(o, last).CreateRun? {
        FinishedForward(executions, after, o.meta.uid);
      }
    case ExecJob(x, latest, stale) => assert StoredAs(after, k, x.meta.uid) ==> SameChild(executions[k], after[k]);
    case _ =>
  }

  /** One execution goes or changes; its key is already dirty. */
  lemma FreshChange(s: State, key: Key, after: Executions)
    requires FreshAt(s) && key in s.dirty && SameElsewhere(s.executions, after, key) && Forward(s.executions, after)
    requires key in after ==> Backed(s.log.newest, s.jobs, after[key])
    ensures FreshAt(s.(executions := after))
  {
    OverlapForward(s.executions, after);
    forall k | k in s.flights ensures FreshFlight(s.log.newest, after, s.jobs, k, s.flights[k]) {
      FlightForward(s.log.newest, s.executions, after, s.jobs, k, s.flights[k]);
    }
    forall k | k in after ensures Backed(s.log.newest, s.jobs, after[k]) {
      assert k != key ==> Backed(s.log.newest, s.jobs, s.executions[k]);
    }
    forall k | k in after && k !in s.dirty
      ensures ExecAwake(s.log.newest, s.jobs, after[k], FlightAt(s.flights, k))
    {
      assert ExecAwake(s.log.newest, s.jobs, s.executions[k], FlightAt(s.flights, k));
    }
  }

  lemma TouchExecutionFresh(s: State, key: Key)
    requires Front(s) && FreshAt(s) && key in s.executions
    ensures FreshAt(PutExecution(s, s.executions[key]))
  {
    var e := s.executions[key];
    ExecutionAtKey(s, key);
    var t := PutExecution(s, e);
    FreshDirty(s, t.dirty);
    Touched(s.log.newest, s.executions, s.jobs, key, s.log.version);
    FreshChange(s.(dirty := t.dirty), key, t.executions);
  }

  lemma Touched(newest: map<Uid, Meta>, executions: Executions, jobs: Jobs, key: Key, version: nat)
    requires key in executions && PhasesBacked(newest, executions, jobs)
    ensures var after := executions[key := executions[key].(meta := executions[key].meta.(version := version))];
            && Forward(executions, after) && SameElsewhere(executions, after, key)
            && Backed(newest, jobs, after[key])
  {
    assert Backed(newest, jobs, executions[key]);
  }

  lemma DeleteExecutionFresh(s: State, key: Key)
    requires Front(s) && FreshAt(s) && key in s.executions
    ensures FreshAt(AfterDeleteExecution(s, key))
  {
    ExecutionAtKey(s, key);
    var t := AfterDeleteExecution(s, key);
    FreshDirty(s, t.dirty);
    FreshChange(s.(dirty := t.dirty), key, t.executions);
  }

  lemma ExecutionAtKey(s: State, key: Key)
    requires Front(s) && key in s.executions
    ensures s.executions[key].meta.key == key && key in Wakes(s.executions[key].meta)
  {
    assert ExecOk(s.log, key, s.executions[key]);
  }

  /** What a status written over a finished one can be, because its Job snapshot backs the old phase. */
  lemma PhaseForward(x: Execution, latest: Job)
    requires Covers(x.status.phase, latest.status)
    ensures IsTerminal(x.status.phase) ==> IsTerminal(NextStatus(x.status, latest).phase)
    ensures x.status.phase == Failed ==> NextStatus(x.status, latest).phase == Failed
  {
  }

  /** What a reconcile about to write an execution's status knows of the store. */
  lemma UpdateKnows(s: State, key: Key)
    requires Front(s) && FreshAt(s) && CanUpdateExecution(s, key)
    ensures var x, latest := s.flights[key].exec, s.flights[key].latest;
            && x.meta.key == key && key.kind == ExecutionKind
            && (ExecCurrent(s, x) ==> s.executions[key] == x)
            && (StoredAs(s.executions, key, x.meta.uid) ==>
                  Tracks(s.log.newest, s.jobs, x, latest) && s.executions[key].status == x.status)
            && (key in s.executions && key !in s.dirty ==>
                  ExecAwake(s.log.newest, s.jobs, s.executions[key], Some(s.flights[key])))
  {
    assert FlightOk(s.log, s.owners, s.executions, key, s.flights[key]);
    assert FreshFlight(s.log.newest, s.executions, s.jobs, key, s.flights[key]);
  }

  lemma WriteStatusFresh(s: State, key: Key, x: Execution, latest: Job, version: nat)
    requires FreshAt(s) && key in s.dirty && key in s.executions && s.executions[key] == x && x.meta.key == key
    requires Tracks(s.log.newest, s.jobs, x, latest)
    ensures FreshAt(s.(executions := s.executions[key :=
              Object(x.meta.(version := version), x.spec, NextStatus(x.status, latest))]))
  {
    var e := Object(x.meta.(version := version), x.spec, NextStatus(x.status, latest));
    PhaseForward(x, latest);
    assert Backed(s.log.newest, s.jobs, e);
    FreshChange(s, key, s.executions[key := e]);
  }

  lemma UpdateExecutionFresh(s: State, key: Key)
    requires Front(s) && FreshAt(s) && CanUpdateExecution(s, key)
    ensures FreshAt(AfterUpdateExecution(s, key))
  {
    var x, latest := s.flights[key].exec, s.flights[key].latest;
    var status := NextStatus(x.status, latest);
    UpdateKnows(s, key);
    if status == x.status {
      FreshMove(s, key, Ended(ExecOutcome(status.phase)));
    } else if !ExecCurrent(s, x) {
      FreshMove(s, key, Ended(Error));
    } else {
      WrittenFresh(s, key, x, latest, Ended(ExecOutcome(status.phase)));
    }
  }

  lemma WrittenFresh(s: State, key: Key, x: Execution, latest: Job, f: Flight)
    requires FreshAt(s) && key in s.executions && s.executions[key] == x && x.meta.key == key
    requires key.kind == ExecutionKind && f.Ended?
    requires Tracks(s.log.newest, s.jobs, x, latest)
    ensures FreshAt(SetFlight(PutExecution(s, x.(status := NextStatus(x.status, latest))), key, f))
  {
    var d := s.dirty + Wakes(x.meta);
    FreshDirty(s, d);
    FreshMove(s.(dirty := d), key, f);
    WriteStatusFresh(SetFlight(s.(dirty := d), key, f), key, x, latest, s.log.version);
  }

  lemma FlightAddsFresh(newest: map<Uid, Meta>, executions: Executions, jobs: Jobs, e: Execution, k: Key, f: Flight)
    requires FreshFlight(newest, executions, jobs, k, f)
    requires f.OwnerListed? ==> !ControlledBy(e.meta, f.owner.meta.uid)
    requires f.ExecJob? ==> f.exec.meta.uid != e.meta.uid
    ensures FreshFlight(newest, executions[e.meta.key := e], jobs, k, f)
  {
  }

  lemma OverlapAdds(executions: Executions, e: Execution)
    requires NoOverlap(executions) && NewestSibling(executions, e)
    requires e.meta.controller.Some? ==> ChildrenFinished(executions, e.meta.controller.value.uid)
    ensures NoOverlap(executions[e.meta.key := e])
  {
  }

  /** A new execution without a phase; its key is already dirty. */
  lemma FreshAdd(s: State, e: Execution)
    requires FreshAt(s) && e.meta.key in s.dirty && e.meta.uid !in s.log.newest && e.status == NO_EXECUTION_STATUS
    requires NewestSibling(s.executions, e)
    requires e.meta.controller.Some? ==> ChildrenFinished(s.executions, e.meta.controller.value.uid)
    requires forall k :: k in s.flights ==>
               && (s.flights[k].OwnerListed? ==> !ControlledBy(e.meta, s.flights[k].owner.meta.uid))
               && (s.flights[k].ExecJob? ==> s.flights[k].exec.meta.uid != e.meta.uid)
    ensures FreshAt(s.(executions := s.executions[e.meta.key := e]))
  {
    var more := s.executions[e.meta.key := e];
    OverlapAdds(s.executions, e);
    forall k | k in s.flights ensures FreshFlight(s.log.newest, more, s.jobs, k, s.flights[k]) {
      FlightAddsFresh(s.log.newest, s.executions, s.jobs, e, k, s.flights[k]);
    }
    forall k | k in more ensures Backed(s.log.newest, s.jobs, more[k]) {
      assert k != e.meta.key ==> Backed(s.log.newest, s.jobs, s.executions[k]);
    }
    forall k | k in more && k !in s.dirty
      ensures ExecAwake(s.log.newest, s.jobs, more[k], FlightAt(s.flights, k))
    {
      assert ExecAwake(s.log.newest, s.jobs, s.executions[k], FlightAt(s.flights, k));
    }
  }

  /** Uids in the copies that reconciles hold have been given out, each to its own key. */
  lemma FlightUids(s: State, k: Key)
    requires Front(s) && k in s.flights
    ensures s.flights[k].OwnerGot? || s.flights[k].OwnerListed? ==> Home(s.log.home, s.flights[k].owner.meta.uid, k)
    ensures s.flights[k].ExecGot? || s.flights[k].ExecJobless? || s.flights[k].ExecModule? || s.flights[k].ExecJob? ==>
              Home(s.log.home, s.flights[k].exec.meta.uid, k)
  {
    assert FlightOk(s.log, s.owners, s.executions, k, s.flights[k]);
  }

  lemma CreateLooseFresh(s: State, key: Key, uid: Uid, spec: ExecutionSpec, annotations: map<string, string>)
    requires Front(s) && BackAt(s) && FreshAt(s) && CanCreateLoose(s, key, uid)
    ensures FreshAt(AfterCreateLoose(s, key, uid, spec, annotations))
  {
    var e := Object(Meta(key, uid, None, s.now, 1, s.log.version, annotations), spec, NO_EXECUTION_STATUS);
    LooseFresh(s, e);
  }

  lemma LooseFresh(s: State, e: Execution)
    requires Front(s) && BackAt(s) && FreshAt(s)
    requires e.meta.key !in s.executions && e.meta.key.kind == ExecutionKind && e.meta.uid !in s.log.home
    requires e.meta.controller.None? && e.status == NO_EXECUTION_STATUS
    ensures FreshOk(s.log.newest, s.executions[e.meta.key := e], s.jobs, s.dirty + Wakes(e.meta), s.flights)
  {
    FreshUid(s.log, s.executions, s.jobs, e.meta.uid);
    FreshDirty(s, s.dirty + Wakes(e.meta));
    NewUidUnheld(s, e.meta.uid);
    FreshAdd(s.(dirty := s.dirty + Wakes(e.meta)), e);
  }

  lemma NewUidUnheld(s: State, uid: Uid)
    requires Front(s) && uid !in s.log.home
    ensures forall k :: k in s.flights && s.flights[k].ExecJob? ==> s.flights[k].exec.meta.uid != uid
  {
    forall k | k in s.flights && s.flights[k].ExecJob? ensures s.flights[k].exec.meta.uid != uid {
      FlightUids(s, k);
    }
  }

  /** What a reconcile about to create an execution knows of the store. */
  lemma ListedFinished(s: State, key: Key)
    requires FreshAt(s) && CallsForRun(s, key)
    ensures ChildrenFinished(s.executions, s.flights[key].owner.meta.uid)
  {
    assert FreshFlight(s.log.newest, s.executions, s.jobs, key, s.flights[key]);
  }

  lemma CreateKnows(s: State, key: Key, e: Execution, uid: Uid, name: string)
    requires Front(s) && CanCreateExecution(s, key, uid, name)
    requires MadeFor(s.flights[key].owner, e, uid, name, s.now, s.log.version)
    ensures NewestSibling(s.executions, e)
    ensures key !in s.executions
    ensures forall k :: k in s.flights && k != key ==>
              && (s.flights[k].OwnerListed? ==> !ControlledBy(e.meta, s.flights[k].owner.meta.uid))
              && (s.flights[k].ExecJob? ==> s.flights[k].exec.meta.uid != uid)
  {
    var log := NewId(s.log, uid, e.meta.key);
    CreatedFitsStore(s, key, e, uid, name, log);
    OwnerKeyed(s, key);
    OthersElsewhere(s, key, uid);
  }

  lemma OthersElsewhere(s: State, key: Key, uid: Uid)
    requires Front(s) && key in s.flights && s.flights[key].OwnerListed? && uid !in s.log.home
    ensures forall k :: k in s.flights && k != key ==>
              && (s.flights[k].OwnerListed? ==> s.flights[k].owner.meta.uid != s.flights[key].owner.meta.uid)
              && (s.flights[k].ExecJob? ==> s.flights[k].exec.meta.uid != uid)
  {
    FlightUids(s, key);
    forall k | k in s.flights && k != key
      ensures s.flights[k].OwnerListed? ==> s.flights[k].owner.meta.uid != s.flights[key].owner.meta.uid
      ensures s.flights[k].ExecJob? ==> s.flights[k].exec.meta.uid != uid
    {
      FlightUids(s, k);
    }
  }

  lemma CreatedFresh(s: State, key: Key, e: Execution)
    requires FreshAt(s) && NewestSibling(s.executions, e) && e.meta.uid !in s.log.newest
    requires e.meta.controller.Some? && ChildrenFinished(s.executions, e.meta.controller.value.uid)
    requires e.status == NO_EXECUTION_STATUS && key !in s.executions && e.meta.key in Wakes(e.meta)
    requires forall k :: k in s.flights && k != key ==>
               && (s.flights[k].OwnerListed? ==> !ControlledBy(e.meta, s.flights[k].owner.meta.uid))
               && (s.flights[k].ExecJob? ==> s.flights[k].exec.meta.uid != e.meta.uid)
    ensures FreshAt(SetFlight(s.(dirty := s.dirty + Wakes(e.meta), executions := s.executions[e.meta.key := e]),
              key, Ended(Done)))
  {
    var d := s.dirty + Wakes(e.meta);
    FreshDirty(s, d);
    FreshMove(s.(dirty := d), key, Ended(Done));
    FreshAdd(SetFlight(s.(dirty := d), key, Ended(Done)), e);
  }

  lemma CreateExecutionFresh(s: State, key: Key, uid: Uid, name: string)
    requires Front(s) && BackAt(s) && FreshAt(s) && CanCreateExecution(s, key, uid, name)
    ensures FreshAt(AfterCreateExecution(s, key, uid, name))
  {
    var o := s.flights[key].owner;
    var e := NewExecution(o, uid, name, s.now, s.log.version);
    NewExecutionMade(o, uid, name, s.now, s.log.version);
    CreateKnows(s, key, e, uid, name);
    FreshUid(s.log, s.executions, s.jobs, uid);
    ListedFinished(s, key);
    CreatedFresh(s, key, e);
  }

  // ---------- jobs ----------

  /** The stored Job of a live execution belongs to it, so events on it wake that execution. */
  lemma JobWakes(s: State, k: Key)
    requires Front(s) && BackAt(s) && k in s.executions && HasJob(s.log.newest, s.jobs, s.executions[k].meta.uid)
    ensures k in Wakes(CurrentJob(s.log.newest, s.jobs, s.executions[k].meta.uid).meta)
  {
    var m := s.log.newest[s.executions[k].meta.uid];
    assert ExecOk(s.log, k, s.executions[k]);
    assert Traced(s.log.made, m.key, m);
    assert MadeJobOk(s.log.home, s.log.newest, m.key, m);
  }

  /** No execution that is not dirty has its newest Job at key. */
  ghost predicate NobodysJob(s: State, key: Key) {
    forall k :: k in s.executions && k !in s.dirty && HasJob(s.log.newest, s.jobs, s.executions[k].meta.uid) ==>
      s.log.newest[s.executions[k].meta.uid].key != key
  }

  lemma WokenJob(s: State, key: Key)
    requires Front(s) && BackAt(s) && key in s.jobs && Wakes(s.jobs[key].meta) <= s.dirty
    ensures NobodysJob(s, key)
  {
    forall k | k in s.executions && k !in s.dirty && HasJob(s.log.newest, s.jobs, s.executions[k].meta.uid)
      ensures s.log.newest[s.executions[k].meta.uid].key != key
    {
      JobWakes(s, k);
    }
  }

  ghost predicate SameJobsElsewhere(a: Jobs, b: Jobs, key: Key) {
    forall k :: k != key ==> (k in a <==> k in b) && (k in a ==> a[k] == b[k])
  }

  lemma AwakeJobs(s: State, key: Key, after: Jobs)
    requires FreshAt(s) && NobodysJob(s, key) && SameJobsElsewhere(s.jobs, after, key)
    ensures ExecutionsAwake(s.log.newest, s.executions, after, s.dirty, s.flights)
  {
    forall k | k in s.executions && k !in s.dirty
      ensures ExecAwake(s.log.newest, after, s.executions[k], FlightAt(s.flights, k))
    {
      assert ExecAwake(s.log.newest, s.jobs, s.executions[k], FlightAt(s.flights, k));
    }
  }

  lemma FlightProgress(newest: map<Uid, Meta>, executions: Executions, jobs: Jobs, key: Key, status: JobStatus,
      k: Key, f: Flight)
    requires key in jobs && Grows(jobs[key].status, status) && FreshFlight(newest, executions, jobs, k, f)
    ensures FreshFlight(newest, executions, jobs[key := jobs[key].(status := status)], k, f)
  {
  }

  lemma ProgressFresh(s: State, key: Key, status: JobStatus)
    requires FreshAt(s) && key in s.jobs && Grows(s.jobs[key].status, status) && NobodysJob(s, key)
    ensures FreshAt(s.(jobs := s.jobs[key := s.jobs[key].(status := status)]))
  {
    var after := s.jobs[key := s.jobs[key].(status := status)];
    AwakeJobs(s, key, after);
    forall k | k in s.flights ensures FreshFlight(s.log.newest, s.executions, after, k, s.flights[k]) {
      FlightProgress(s.log.newest, s.executions, s.jobs, key, status, k, s.flights[k]);
    }
    forall k | k in s.executions ensures Backed(s.log.newest, after, s.executions[k]) {
      assert Backed(s.log.newest, s.jobs, s.executions[k]);
    }
  }

  lemma JobProgressFresh(s: State, key: Key, status: JobStatus)
    requires Front(s) && BackAt(s) && FreshAt(s) && CanProgress(s, key, status)
    ensures FreshAt(PutJobs(s, s.jobs[key := s.jobs[key].(status := status)], Wakes(s.jobs[key].meta)))
  {
    var t := s.(dirty := s.dirty + Wakes(s.jobs[key].meta));
    FreshDirty(s, t.dirty);
    MoreDirty(s, t.dirty);
    WokenJob(t, key);
    ProgressFresh(t, key, status);
  }

  lemma RemoveFresh(s: State, key: Key)
    requires FreshAt(s) && key in s.jobs
    requires forall k :: k in s.executions && s.executions[k].meta.uid in s.log.newest ==>
               s.log.newest[s.executions[k].meta.uid].key != key
    ensures FreshAt(s.(jobs := s.jobs - {key}))
  {
    var after := s.jobs - {key};
    AwakeJobs(s, key, after);
    forall k | k in s.executions ensures Backed(s.log.newest, after, s.executions[k]) {
      assert Backed(s.log.newest, s.jobs, s.executions[k]);
    }
    forall k | k in s.flights ensures FreshFlight(s.log.newest, s.executions, after, k, s.flights[k]) {
      assert FreshFlight(s.log.newest, s.executions, s.jobs, k, s.flights[k]);
    }
  }

  lemma DeleteOrphanFresh(s: State, key: Key)
    requires BackAt(s) && FreshAt(s) && CanCollect(s, key)
    ensures FreshAt(PutJobs(s, s.jobs - {key}, Wakes(s.jobs[key].meta)))
  {
    var t := s.(dirty := s.dirty + Wakes(s.jobs[key].meta));
    FreshDirty(s, t.dirty);
    forall k | k in s.executions && s.executions[k].meta.uid in s.log.newest
      ensures s.log.newest[s.executions[k].meta.uid].key != key
    {
      assert HasJob(s.log.newest, s.jobs, s.executions[k].meta.uid);
      assert Live(s.executions, s.executions[k].meta.uid);
      assert ControlledBy(s.log.newest[s.executions[k].meta.uid], s.executions[k].meta.uid);
    }
    RemoveFresh(t, key);
  }

  // ---------- execution reconcile ----------

  lemma GetExecutionFresh(s: State, key: Key)
    requires FreshAt(s) && CanGetExecution(s, key)
    ensures FreshAt(AfterGetExecution(s, key))
  {
    FreshMove(s, key, if key in s.executions then ExecGot(s.executions[key]) else Ended(Done));
  }

  lemma JobsAtHome(log: Log, jobs: Jobs, key: Key, uid: Uid)
    requires JobsOk(log.made, log.specs, jobs) && MadeOk(log.home, log.made, log.newest) && Home(log.home, uid, key)
    ensures forall k :: k in jobs && ControlledBy(jobs[k].meta, uid) ==> k.ns == key.ns
  {
    forall k | k in jobs && ControlledBy(jobs[k].meta, uid) ensures k.ns == key.ns {
      assert JobOk(log.made, log.specs, k, jobs[k]);
      assert MadeJobOk(log.home, log.newest, k, jobs[k].meta);
    }
  }

  /** The namespace's list holds every Job of the execution. */
  lemma ListedComplete(jobs: Jobs, ns: string, items: seq<Job>, uid: Uid)
    requires IsListing(jobs, ns, items)
    requires forall k :: k in jobs && ControlledBy(jobs[k].meta, uid) ==> k.ns == ns
    ensures forall k :: k in jobs && ControlledBy(jobs[k].meta, uid) ==> jobs[k] in items
    ensures forall y :: y in items ==> y.meta.key in jobs && jobs[y.meta.key] == y
  {
  }

  lemma OnlyNewest(newest: map<Uid, Meta>, jobs: Jobs, owned: seq<Job>, uid: Uid)
    requires SingleJob(newest, jobs) && StrictlyNewestFirst(owned)
    requires forall y :: y in owned ==> ControlledBy(y.meta, uid) && y.meta.key in jobs && jobs[y.meta.key] == y
    ensures owned != [] ==> |owned| == 1 && HasJob(newest, jobs, uid) && owned[0] == CurrentJob(newest, jobs, uid)
  {
    assert |owned| > 1 ==> owned[0].meta.created > owned[1].meta.created;
    forall i | 0 <= i < |owned| ensures uid in newest && owned[i].meta == newest[uid] {
      assert owned[i] in owned;
    }
    if owned != [] {
      assert owned[0] in owned;
    }
  }

  /** A fresh list shows the only Job there is, or that there is none. */
  lemma FreshListIsExact(log: Log, executions: Executions, jobs: Jobs, key: Key, uid: Uid, items: seq<Job>)
    requires Back(log, executions, jobs) && Home(log.home, uid, key) && IsListing(jobs, key.ns, items)
    requires SingleJob(log.newest, jobs)
    ensures var owned := Sort(Owned(items, uid));
            && (owned == [] ==> Jobless(jobs, uid))
            && (owned != [] ==>
                  |owned| == 1 && HasJob(log.newest, jobs, uid) && owned[0] == CurrentJob(log.newest, jobs, uid))
  {
    NoTies(log, jobs, key.ns, items, uid);
    JobsAtHome(log, jobs, key, uid);
    ExactSelection(log.newest, jobs, key.ns, uid, items);
  }

  lemma ExactSelection(newest: map<Uid, Meta>, jobs: Jobs, ns: string, uid: Uid, items: seq<Job>)
    requires IsListing(jobs, ns, items) && SingleJob(newest, jobs)
    requires forall k :: k in jobs && ControlledBy(jobs[k].meta, uid) ==> k.ns == ns
    requires forall i, j ::
               0 <= i < j < |items| && ControlledBy(items[i].meta, uid) && ControlledBy(items[j].meta, uid) ==>
                 items[i].meta.created != items[j].meta.created
    ensures var owned := Sort(Owned(items, uid));
            && (owned == [] ==> Jobless(jobs, uid))
            && (owned != [] ==> |owned| == 1 && HasJob(newest, jobs, uid) && owned[0] == CurrentJob(newest, jobs, uid))
  {
    SortOwnedStrict(items, uid);
    ListedComplete(jobs, ns, items, uid);
    OnlyNewest(newest, jobs, Sort(Owned(items, uid)), uid);
  }

  /** What a reconcile about to list Jobs knows of the execution it holds. */
  lemma ListKnows(s: State, key: Key)
    requires Front(s) && FreshAt(s) && key in s.flights && s.flights[key].ExecGot?
    ensures var x := s.flights[key].exec;
            && x.meta.key == key && Home(s.log.home, x.meta.uid, key)
            && (StoredAs(s.executions, key, x.meta.uid) ==>
                  s.executions[key].status == x.status && Backed(s.log.newest, s.jobs, x))
            && (key in s.executions && key !in s.dirty ==> s.executions[key] == x)
  {
    var x := s.flights[key].exec;
    assert FlightOk(s.log, s.owners, s.executions, key, s.flights[key]);
    if key in s.executions {
      assert Backed(s.log.newest, s.jobs, s.executions[key]);
      assert key !in s.dirty ==> ExecAwake(s.log.newest, s.jobs, s.executions[key], FlightAt(s.flights, key));
    }
  }

  /** The list found no Job, or exactly the newest one. */
  lemma ListedFresh(s: State, key: Key, x: Execution, selected: Option<Job>)
    requires FreshAt(s)
    requires StoredAs(s.executions, key, x.meta.uid) ==>
               s.executions[key].status == x.status && Backed(s.log.newest, s.jobs, x)
    requires key in s.executions && key !in s.dirty ==> s.executions[key] == x
    requires selected.None? ==> Jobless(s.jobs, x.meta.uid)
    requires selected.Some? ==>
               HasJob(s.log.newest, s.jobs, x.meta.uid)
                   && selected.value == CurrentJob(s.log.newest, s.jobs, x.meta.uid)
    ensures FreshAt(SetFlight(s, key, if selected.None? then ExecJobless(x) else ExecJob(x, selected.value, [])))
  {
    FreshMove(s, key, if selected.None? then ExecJobless(x) else ExecJob(x, selected.value, []));
  }

  lemma ListJobsMoves(s: State, key: Key, items: seq<Job>)
    requires key in s.flights && s.flights[key].ExecGot?
    ensures var x := s.flights[key].exec;
            var owned := Sort(Owned(items, x.meta.uid));
            && (owned == [] ==> AfterListJobs(s, key, items) == SetFlight(s, key, ExecJobless(x)))
            && (|owned| == 1 ==> AfterListJobs(s, key, items) == SetFlight(s, key, ExecJob(x, owned[0], [])))
  {
    var owned := Sort(Owned(items, s.flights[key].exec.meta.uid));
    assert |owned| == 1 ==> owned[1..] == [];
  }

  lemma ListJobsFinds(s: State, key: Key, items: seq<Job>) returns (selected: Option<Job>)
    requires BackAt(s) && SingleJob(s.log.newest, s.jobs) && CanListJobs(s, key, s.jobs, items)
    requires var x := s.flights[key].exec; x.meta.key == key && Home(s.log.home, x.meta.uid, key)
    ensures var x := s.flights[key].exec;
            && (selected.None? ==> Jobless(s.jobs, x.meta.uid))
            && (selected.Some? ==>
                  HasJob(s.log.newest, s.jobs, x.meta.uid)
                      && selected.value == CurrentJob(s.log.newest, s.jobs, x.meta.uid))
            && AfterListJobs(s, key, items) ==
                 SetFlight(s, key, if selected.None? then ExecJobless(x) else ExecJob(x, selected.value, []))
  {
    var x := s.flights[key].exec;
    FreshListIsExact(s.log, s.executions, s.jobs, key, x.meta.uid, items);
    ListJobsMoves(s, key, items);
    var owned := Sort(Owned(items, x.meta.uid));
    selected := if owned == [] then None else Some(owned[0]);
  }

  lemma ListJobsFresh(s: State, key: Key, items: seq<Job>)
    requires Front(s) && BackAt(s) && FreshAt(s) && CanListJobs(s, key, s.jobs, items)
    ensures FreshAt(AfterListJobs(s, key, items))
  {
    ListKnows(s, key);
    var selected := ListJobsFinds(s, key, items);
    ListedFresh(s, key, s.flights[key].exec, selected);
  }

  lemma ReadModuleFresh(s: State, key: Key)
    requires FreshAt(s) && CanReadModule(s, key)
    ensures FreshAt(AfterReadModule(s, key))
  {
    assert FreshFlight(s.log.newest, s.executions, s.jobs, key, s.flights[key]);
    if key in s.executions && key !in s.dirty {
      assert ExecAwake(s.log.newest, s.jobs, s.executions[key], Some(s.flights[key]));
    }
    FreshMove(s, key, AfterReadModule(s, key).flights[key]);
  }

  /** An execution about to get a Job is the only one of its uid, has none yet, and shows no phase. */
  ghost predicate Awaiting(s: State, key: Key, uid: Uid) {
    && Jobless(s.jobs, uid)
    && (forall k :: k in s.executions && s.executions[k].meta.uid == uid ==>
          k == key && uid !in s.log.newest)
    && (forall k :: k in s.flights && k != key ==>
          && (s.flights[k].ExecJobless? || s.flights[k].ExecModule? || s.flights[k].ExecJob? ==>
                s.flights[k].exec.meta.uid != uid))
  }

  lemma MadeNotJobless(log: Log, executions: Executions, jobs: Jobs, k: Key)
    requires NewestOk(log.home, log.made, log.newest) && NewestKept(log.newest, executions, jobs) && k in executions
    ensures executions[k].meta.uid in log.newest ==> !Jobless(jobs, executions[k].meta.uid)
  {
    var u := executions[k].meta.uid;
    if u in log.newest {
      assert HasJob(log.newest, jobs, u);
      assert ControlledBy(jobs[log.newest[u].key].meta, u);
    }
  }

  lemma CreateJobKnows(s: State, key: Key, uid: Uid, name: string, defaultImage: string)
    requires Front(s) && BackAt(s) && FreshAt(s) && CanCreateJob(s, key, uid, name)
    ensures Awaiting(s, key, s.flights[key].exec.meta.uid)
  {
    var u := s.flights[key].exec.meta.uid;
    FlightUids(s, key);
    assert FreshFlight(s.log.newest, s.executions, s.jobs, key, s.flights[key]);
    forall k | k in s.executions && s.executions[k].meta.uid == u ensures k == key && u !in s.log.newest {
      assert ExecOk(s.log, k, s.executions[k]);
      MadeNotJobless(s.log, s.executions, s.jobs, k);
    }
    OthersHoldOthers(s, key, u);
  }

  lemma OthersHoldOthers(s: State, key: Key, u: Uid)
    requires Front(s) && Home(s.log.home, u, key)
    ensures forall k :: k in s.flights && k != key ==>
              s.flights[k].ExecJobless? || s.flights[k].ExecModule? || s.flights[k].ExecJob? ==>
              s.flights[k].exec.meta.uid != u
  {
    forall k | k in s.flights && k != key
      ensures s.flights[k].ExecJobless? || s.flights[k].ExecModule? || s.flights[k].ExecJob? ==>
              s.flights[k].exec.meta.uid != u
    {
      FlightUids(s, k);
    }
  }

  lemma FlightWithJob(newest: map<Uid, Meta>, executions: Executions, jobs: Jobs, j: Job, u: Uid, k: Key, f: Flight)
    requires FreshFlight(newest, executions, jobs, k, f) && ControlledBy(j.meta, u)
    requires forall v :: v in newest ==> newest[v].key != j.meta.key
    requires f.ExecJobless? || f.ExecModule? || f.ExecJob? ==> f.exec.meta.uid != u
    ensures FreshFlight(newest[u := j.meta], executions, jobs[j.meta.key := j], k, f)
  {
  }

  lemma PhasesWithJob(newest: map<Uid, Meta>, executions: Executions, jobs: Jobs, j: Job, u: Uid, key: Key)
    requires PhasesBacked(newest, executions, jobs)
    requires forall v :: v in newest ==> newest[v].key != j.meta.key
    requires forall k :: k in executions && executions[k].meta.uid == u ==> k == key && u !in newest
    ensures PhasesBacked(newest[u := j.meta], executions, jobs[j.meta.key := j])
  {
    forall k | k in executions ensures Backed(newest[u := j.meta], jobs[j.meta.key := j], executions[k]) {
      assert Backed(newest, jobs, executions[k]);
    }
  }

  lemma WithJobFresh(s: State, key: Key, j: Job, u: Uid)
    requires FreshAt(s) && Awaiting(s, key, u) && ControlledBy(j.meta, u) && key in s.dirty
    requires key in s.flights && s.flights[key] == Ended(RequeueNow)
    requires forall v :: v in s.log.newest ==> s.log.newest[v].key != j.meta.key
    ensures FreshOk(s.log.newest[u := j.meta], s.executions, s.jobs[j.meta.key := j], s.dirty, s.flights)
  {
    var newest, jobs := s.log.newest[u := j.meta], s.jobs[j.meta.key := j];
    PhasesWithJob(s.log.newest, s.executions, s.jobs, j, u, key);
    forall k | k in s.flights ensures FreshFlight(newest, s.executions, jobs, k, s.flights[k]) {
      FlightWithJob(s.log.newest, s.executions, s.jobs, j, u, k, s.flights[k]);
    }
    forall k | k in s.executions && k !in s.dirty
      ensures ExecAwake(newest, jobs, s.executions[k], FlightAt(s.flights, k))
    {
      assert ExecAwake(s.log.newest, s.jobs, s.executions[k], FlightAt(s.flights, k));
    }
  }

  lemma CreateJobFresh(s: State, key: Key, uid: Uid, name: string, defaultImage: string)
    requires Front(s) && BackAt(s) && FreshAt(s) && CanCreateJob(s, key, uid, name)
    ensures FreshAt(AfterCreateJob(s, key, uid, name, defaultImage))
  {
    var x := s.flights[key].exec;
    var j := NewJob(x, s.flights[key].mod, defaultImage, uid, name, s.now);
    CreateJobKnows(s, key, uid, name, defaultImage);
    NewJobFits(s, key, uid, name, defaultImage);
    NewNameUnmade(s.log, j.meta.key);
    AddedJobFresh(s, key, j, x.meta.uid);
  }

  lemma AddedJobFresh(s: State, key: Key, j: Job, u: Uid)
    requires FreshAt(s) && Awaiting(s, key, u) && ControlledBy(j.meta, u) && ControllerKey(j.meta) == key
    requires forall v :: v in s.log.newest ==> s.log.newest[v].key != j.meta.key
    ensures FreshOk(s.log.newest[u := j.meta], s.executions, s.jobs[j.meta.key := j], s.dirty + Wakes(j.meta),
              s.flights[key := Ended(RequeueNow)])
  {
    var d := s.dirty + Wakes(j.meta);
    FreshDirty(s, d);
    FreshMove(s.(dirty := d), key, Ended(RequeueNow));
    WithJobFresh(SetFlight(s.(dirty := d), key, Ended(RequeueNow)), key, j, u);
  }

  // ---------- owner reconcile ----------

  lemma NewestFinishedAllFinished(executions: Executions, o: Owner, last: Option<Execution>)
    requires NoOverlap(executions) && IsNewest(executions, o.meta.uid, last)
    ensures Decide(o, last).CreateRun? ==> ChildrenFinished(executions, o.meta.uid)
  {
    if Decide(o, last).CreateRun? {
      forall l | l in executions && ControlledBy(executions[l].meta, o.meta.uid)
        ensures IsTerminal(executions[l].status.phase)
      {
        assert l != last.value.meta.key ==> Siblings(executions[l].meta, last.value.meta);
      }
    }
  }

  lemma ListExecutionsFresh(s: State, key: Key, items: seq<Execution>)
    requires Front(s) && FreshAt(s) && CanListExecutions(s, key, items)
    ensures FreshAt(AfterListExecutions(s, key, items))
  {
    var o := s.flights[key].owner;
    var last := Select(items, o.meta.uid);
    ListFindsNewest(s, key, items);
    OwnerKeyed(s, key);
    NewestFinishedAllFinished(s.executions, o, last);
    FreshMove(s, key, OwnerListed(o, last));
  }

  /** The reconcile of an owner runs under an owner's key. */
  lemma OwnerKeyed(s: State, key: Key)
    requires Front(s) && key in s.flights && (s.flights[key].OwnerGot? || s.flights[key].OwnerListed?)
    ensures key !in s.executions
  {
    assert FlightOk(s.log, s.owners, s.executions, key, s.flights[key]);
    NoExecutionThere(s, key);
  }

  lemma UpdateOwnerFresh(s: State, key: Key)
    requires Front(s) && FreshAt(s) && CanUpdateOwner(s, key)
    ensures FreshAt(AfterUpdateOwner(s, key))
  {
    OwnerKeyed(s, key);
    UpdateOwnerMoves(s, key);
    FreshMoves(s, AfterUpdateOwner(s, key), key);
  }

  lemma UpdateOwnerMoves(s: State, key: Key)
    requires CanUpdateOwner(s, key)
    ensures OnlyWakes(s, AfterUpdateOwner(s, key), key)
  {
  }

  /** Executions and Jobs are the same, more keys may be dirty, and the flight at key has ended. */
  ghost predicate OnlyWakes(s: State, t: State, key: Key) {
    && t.executions == s.executions && t.jobs == s.jobs && t.log.newest == s.log.newest && s.dirty <= t.dirty
    && key in t.flights && t.flights[key].Ended? && t.flights == s.flights[key := t.flights[key]]
  }

  lemma FreshMoves(s: State, t: State, key: Key)
    requires FreshAt(s) && OnlyWakes(s, t, key) && key !in s.executions
    ensures FreshAt(t)
  {
    FreshDirty(s, t.dirty);
    FreshMove(s.(dirty := t.dirty), key, t.flights[key]);
  }
}
