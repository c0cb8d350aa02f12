/** Wake-ups, convergence, the owner's fixpoint, and what a fresh reconcile leaves after pruning. */
module Settling {
  import opened Basics
  import opened Objects
  import opened Decisions
  import opened Selection
  import opened Protocol
  import opened Invariants
  import opened FrontSteps
  import opened BaseSteps
  import opened BaseRuns
  import opened FreshSteps
  import opened StrongRuns
  import opened Safety

  // ---------- no lost wake-up ----------

  /** Whatever List returns, reconciling this owner now writes nothing. */
  ghost predicate OwnerIdle(s: State, k: Key)
    requires k in s.owners
  {
    forall items :: IsListing(s.executions, k.ns, items) ==>
      Decide(s.owners[k], Select(items, s.owners[k].meta.uid)).Rest?
  }

  /** Whatever List returns, reconciling this execution now finds one Job, and its status is what that Job calls for. */
  ghost predicate ExecutionIdle(s: State, k: Key)
    requires k in s.executions
  {
    forall items :: IsListing(s.jobs, k.ns, items) ==>
      var owned := Sort(Owned(items, s.executions[k].meta.uid));
      |owned| == 1 && Reports(s.executions[k].status, s.executions[k].status, owned[0])
  }

  lemma SettledIsIdle(s: State, k: Key)
    requires Front(s) && k in s.owners && OwnerSettled(s.executions, s.owners[k])
    ensures OwnerIdle(s, k)
  {
    var uid := s.owners[k].meta.uid;
    var last :| IsNewest(s.executions, uid, last) && Decide(s.owners[k], last).Rest?;
    assert OwnerOk(s.log, k, s.owners[k]);
    forall items | IsListing(s.executions, k.ns, items)
      ensures Decide(s.owners[k], Select(items, uid)).Rest?
    {
      NamespaceHoldsAll(s, k, uid, items);
      NewestUnique(s.executions, uid, last, Select(items, uid));
    }
  }

  /**
   * No wake-up of an owner is lost, though a conflict is swallowed and a write asks for no requeue: an owner
   * neither dirty nor being reconciled has nothing to write. Job lists of any age.
   */
  lemma NoLostOwnerWakeUp(s: State, k: Key, freshReads: bool)
    requires Reachable(s, freshReads) && k in s.owners && k !in s.dirty && k !in s.flights
    ensures OwnerIdle(s, k)
  {
    ReachableBase(s, freshReads);
    assert OwnerAwake(s.executions, s.owners[k], FlightAt(s.flights, k));
    SettledIsIdle(s, k);
  }

  lemma SyncIsIdle(s: State, k: Key)
    requires BackAt(s) && SingleJob(s.log.newest, s.jobs) && k in s.executions
    requires Home(s.log.home, s.executions[k].meta.uid, k)
    requires InSync(s.log.newest, s.jobs, s.executions[k])
    ensures ExecutionIdle(s, k)
  {
    var e := s.executions[k];
    forall items | IsListing(s.jobs, k.ns, items)
      ensures var owned := Sort(Owned(items, e.meta.uid));
              |owned| == 1 && Reports(e.status, e.status, owned[0])
    {
      FreshListIsExact(s.log, s.executions, s.jobs, k, e.meta.uid, items);
      HasJobNotJobless(s.log, s.jobs, e.meta.uid);
      StatusExactly(e.status, e.status, Sort(Owned(items, e.meta.uid))[0]);
    }
  }

  lemma HasJobNotJobless(log: Log, jobs: Jobs, uid: Uid)
    requires NewestOk(log.home, log.made, log.newest) && HasJob(log.newest, jobs, uid)
    ensures !Jobless(jobs, uid)
  {
    assert ControlledBy(jobs[log.newest[uid].key].meta, uid);
  }

  lemma CalmExecution(s: State, k: Key)
    requires Strong(s) && k in s.executions && k !in s.dirty && k !in s.flights
    ensures InSync(s.log.newest, s.jobs, s.executions[k]) && Home(s.log.home, s.executions[k].meta.uid, k)
  {
    assert ExecAwake(s.log.newest, s.jobs, s.executions[k], FlightAt(s.flights, k));
    assert ExecOk(s.log, k, s.executions[k]);
  }

  /** No wake-up of an execution is lost: neither dirty nor being reconciled, it has its Job and shows it. */
  lemma NoLostExecutionWakeUp(s: State, k: Key)
    requires Reachable(s, true) && k in s.executions && k !in s.dirty && k !in s.flights
    ensures ExecutionIdle(s, k)
  {
    ReachableStrong(s);
    CalmExecution(s, k);
    SyncIsIdle(s, k);
  }

  // ---------- convergence ----------

  ghost predicate Quiescent(s: State) {
    s.dirty == {} && s.flights == map[]
  }

  predicate JobFinished(status: JobStatus) {
    status.failed > 0 || status.succeeded > 0
  }

  ghost predicate JobsFinished(s: State) {
    forall k :: k in s.jobs ==> JobFinished(s.jobs[k].status)
  }

  /** e is the owner's current execution, and has finished, and the owner's status shows it. */
  ghost predicate Shows(s: State, o: Owner, e: Execution) {
    && IsNewest(s.executions, o.meta.uid, Some(e)) && Stamp(e) == o.meta.generation
    && o.status.lastExecution == e.meta.key.name && o.status.phase == e.status.phase
    && (e.status.phase == Succeeded || e.status.phase == Failed)
  }

  /** e has the status its Job, the newest made for it, calls for. */
  ghost predicate ReportsJob(s: State, e: Execution) {
    && HasJob(s.log.newest, s.jobs, e.meta.uid)
    && Reports(e.status, e.status, CurrentJob(s.log.newest, s.jobs, e.meta.uid))
  }

  /** There is no execution, or the newest has finished for another generation. */
  ghost predicate RunDue(o: Owner, last: Option<Execution>) {
    last.Some? ==>
      && Stamp(last.value) != o.meta.generation
      && (last.value.status.phase == Succeeded || last.value.status.phase == Failed)
  }

  /**
   * An execution is created exactly when one is due, and otherwise the status is written exactly when it has
   * another name or phase than the newest execution's: it gets these, and the generation of the owner.
   */
  lemma MoveExactly(o: Owner, last: Option<Execution>)
    requires last.Some? ==> WellStamped(last.value) && last.value.meta.controller.value.kind == o.meta.key.kind
    ensures Decide(o, last).CreateRun? <==> RunDue(o, last)
    ensures !RunDue(o, last) ==>
              var e, status := last.value, o.status;
              && (Decide(o, last).Rest? <==>
                    status.lastExecution == e.meta.key.name && status.phase == e.status.phase)
              && (Decide(o, last).Mirror? ==>
                    var next := Decide(o, last).status;
                    && next.lastExecution == e.meta.key.name && next.phase == e.status.phase
                    && next.observedGeneration == o.meta.generation)
  {
    if last.Some? {
      StampTextCurrent(o, last.value);
    }
  }

  /** A move that writes nothing means exactly: the newest execution is current or still running, and is mirrored. */
  lemma RestExactly(o: Owner, last: Option<Execution>)
    requires last.Some? ==> WellStamped(last.value) && last.value.meta.controller.value.kind == o.meta.key.kind
    ensures Decide(o, last).Rest? <==>
              (last.Some? && (Stamp(last.value) == o.meta.generation || !IsTerminal(last.value.status.phase))
               && o.status.lastExecution == last.value.meta.key.name && o.status.phase == last.value.status.phase)
  {
    if last.Some? {
      StampTextCurrent(o, last.value);
    }
  }

  lemma QuiescentExecution(s: State, k: Key)
    requires Reachable(s, true) && Quiescent(s) && k in s.executions
    ensures ReportsJob(s, s.executions[k])
  {
    ReachableStrong(s);
    CalmReports(s, k);
  }

  lemma CalmReports(s: State, k: Key)
    requires Strong(s) && k in s.executions && k !in s.dirty && k !in s.flights
    ensures ReportsJob(s, s.executions[k])
  {
    var e := s.executions[k];
    CalmExecution(s, k);
    StatusExactly(e.status, e.status, CurrentJob(s.log.newest, s.jobs, e.meta.uid));
  }

  lemma QuiescentOwner(s: State, k: Key, freshReads: bool) returns (last: Option<Execution>)
    requires Reachable(s, freshReads) && Quiescent(s) && k in s.owners
    ensures IsNewest(s.executions, s.owners[k].meta.uid, last) && Decide(s.owners[k], last).Rest?
    ensures last.Some? && last.value.meta.key in s.executions && s.executions[last.value.meta.key] == last.value
    ensures WellStamped(last.value) && last.value.meta.controller.value.kind == s.owners[k].meta.key.kind
  {
    ReachableBase(s, freshReads);
    assert OwnerAwake(s.executions, s.owners[k], FlightAt(s.flights, k));
    last :| IsNewest(s.executions, s.owners[k].meta.uid, last) && Decide(s.owners[k], last).Rest?;
    assert OwnerOk(s.log, k, s.owners[k]);
    assert ExecOk(s.log, last.value.meta.key, last.value);
  }

  /**
   * End to end: when nothing is queued or in flight and every Job has finished, every execution shows
   * its Job's phase, and every owner shows an execution made for its current generation.
   */
  lemma Convergence(s: State, k: Key)
    requires Reachable(s, true) && Quiescent(s) && JobsFinished(s) && k in s.owners
    ensures exists e :: Shows(s, s.owners[k], e) && ReportsJob(s, e)
  {
    var last := QuiescentOwner(s, k, true);
    var e := last.value;
    QuiescentExecution(s, e.meta.key);
    RestExactly(s.owners[k], last);
    assert Shows(s, s.owners[k], e);
  }

  // ---------- two owner reconciles reach a fixpoint ----------

  predicate OwnerWrite(w: Action) {
    w.CreateExecution? || w.UpdateOwner? || w.RestOwner?
  }

  /** The state after an owner's key has been popped and the owner read. */
  ghost function Reading(s: State, key: Key): State
    requires key in s.owners
  {
    SetFlight(s.(dirty := s.dirty - {key}), key, OwnerGot(s.owners[key]))
  }

  /** One reconcile of an owner, without errors and with nothing in between. */
  ghost predicate Round(s: State, key: Key, items: seq<Execution>, w: Action, t: State) {
    && key in s.owners && s.owners[key].meta.key == key && key !in s.flights && IsListing(s.executions, key.ns, items)
    && var listed := AfterListExecutions(Reading(s, key), key, items);
       && OwnerWrite(w) && w.key == key && Enabled(listed, w)
       && var written := Apply(listed, w);
          && key in written.flights && written.flights[key].Ended?
          && t == AfterFinish(written, key)
  }

  /** The state after an owner's key has been popped. */
  function Popping(s: State, key: Key): State {
    SetFlight(s.(dirty := s.dirty - {key}), key, Popped)
  }

  lemma PoppingRuns(s: State, key: Key)
    requires key !in s.flights
    ensures var s1 := Apply(s, Requeue(key));
            Enabled(s1, Pop(key)) && Apply(s1, Pop(key)) == Popping(s, key)
  {
    assert Apply(Apply(s, Requeue(key)), Pop(key)).dirty == s.dirty - {key};
  }

  /** Queueing a key, popping it and getting the owner is how Reading is reached. */
  lemma ReadingRuns(s: State, key: Key)
    requires key in s.owners && IsOwnerKind(key.kind)
    ensures Enabled(Popping(s, key), GetOwner(key)) && Apply(Popping(s, key), GetOwner(key)) == Reading(s, key)
  {
    assert AfterGetOwner(Popping(s, key), key).flights == Reading(s, key).flights;
  }

  /** A round is a run of the protocol. */
  lemma RoundRuns(s: State, key: Key, items: seq<Execution>, w: Action, t: State)
    requires Round(s, key, items, w, t)
    ensures var s3 := Reading(s, key);
            && Enabled(s3, ListExecutions(key, items)) && var s4 := Apply(s3, ListExecutions(key, items));
            && Enabled(s4, w) && Enabled(Apply(s4, w), Finish(key)) && t == Apply(Apply(s4, w), Finish(key))
  {
  }

  /** What one round leaves in the store. */
  ghost predicate RoundLeaves(s: State, key: Key, w: Action, t: State)
    requires key in s.owners
  {
    var o := s.owners[key];
    && (w.RestOwner? ==>
          t.owners == s.owners && t.executions == s.executions
          && exists last :: IsNewest(s.executions, o.meta.uid, last) && Decide(o, last).Rest?)
    && (w.UpdateOwner? ==>
          && t.executions == s.executions && key in t.owners && t.owners[key].meta.uid == o.meta.uid
          && exists last :: IsNewest(t.executions, o.meta.uid, last) && Decide(t.owners[key], last).Rest?)
    && (w.CreateExecution? ==>
          && t.owners == s.owners
          && exists e :: IsNewest(t.executions, o.meta.uid, Some(e)) && !Decide(o, Some(e)).CreateRun?)
  }

  lemma MirroredRests(o: Owner, last: Option<Execution>, version: nat)
    requires Decide(o, last).Mirror?
    ensures var o' := Object(o.meta.(version := version), o.spec, Decide(o, last).status);
            Decide(o', last).Rest?
  {
  }

  lemma CreatedIsNewest(executions: Executions, o: Owner, e: Execution, uid: Uid, name: string, now: nat, version: nat)
    requires MadeFor(o, e, uid, name, now, version) && e.meta.key !in executions && NewestSibling(executions, e)
    requires e.status == NO_EXECUTION_STATUS
    ensures IsNewest(executions[e.meta.key := e], o.meta.uid, Some(e)) && !Decide(o, Some(e)).CreateRun?
  {
  }

  lemma CreateRound(s: State, key: Key, uid: Uid, name: string)
    requires Front(s) && CanCreateExecution(s, key, uid, name)
    ensures var o := s.flights[key].owner;
            var t := AfterCreateExecution(s, key, uid, name);
            && t.owners == s.owners
            && exists e :: IsNewest(t.executions, o.meta.uid, Some(e)) && !Decide(o, Some(e)).CreateRun?
  {
    var o := s.flights[key].owner;
    var e := NewExecution(o, uid, name, s.now, s.log.version);
    NewExecutionMade(o, uid, name, s.now, s.log.version);
    var log := NewId(s.log, uid, e.meta.key);
    CreatedFitsStore(s, key, e, uid, name, log);
    CreatedIsNewest(s.executions, o, e, uid, name, s.now, s.log.version);
  }

  lemma ReadingFront(s: State, key: Key)
    requires Front(s) && key in s.owners && key !in s.flights
    ensures Front(Reading(s, key)) && s.owners[key].meta.key == key && IsOwnerKind(key.kind)
  {
    assert OwnerOk(s.log, key, s.owners[key]);
    var s1 := s.(dirty := s.dirty + {key});
    var s2 := SetFlight(s1, key, Popped).(dirty := s1.dirty - {key});
    MoreDirty(s, s1.dirty);
    PopFront(s1, key);
    GetOwnerFront(s2, key);
    assert s2.dirty == s.dirty - {key};
    assert AfterGetOwner(s2, key).flights == Reading(s, key).flights;
  }

  /** The state after the read steps of a round. */
  lemma RoundReads(s: State, key: Key, items: seq<Execution>)
    requires Front(s) && key in s.owners && key !in s.flights && IsListing(s.executions, key.ns, items)
    ensures s.owners[key].meta.key == key && Enabled(Reading(s, key), ListExecutions(key, items))
    ensures Front(AfterListExecutions(Reading(s, key), key, items))
    ensures IsNewest(s.executions, s.owners[key].meta.uid, Select(items, s.owners[key].meta.uid))
  {
    ReadingFront(s, key);
    ListExecutionsFront(Reading(s, key), key, items);
    ListFindsNewest(Reading(s, key), key, items);
  }

  lemma Listed(s: State, key: Key, items: seq<Execution>)
    requires key in s.owners
    ensures var t := AfterListExecutions(Reading(s, key), key, items);
            && key in t.flights && t.flights[key] == OwnerListed(s.owners[key], Select(items, s.owners[key].meta.uid))
            && t.owners == s.owners && t.executions == s.executions && t.log == s.log
  {
  }

  lemma UpdateRound(s: State, key: Key)
    requires CanUpdateOwner(s, key) && key in s.owners && s.flights[key].owner == s.owners[key]
    requires s.owners[key].meta.key == key
    ensures var t := AfterUpdateOwner(s, key);
            && t.executions == s.executions && key in t.owners && t.owners[key].meta.uid == s.owners[key].meta.uid
            && Decide(t.owners[key], s.flights[key].last).Rest?
  {
    MirroredRests(s.owners[key], s.flights[key].last, s.log.version);
  }

  /** What a write leaves once its reconcile has finished. */
  lemma Finished(s: State, w: Action, t: State)
    requires OwnerWrite(w) && Enabled(s, w) && w.key in Apply(s, w).flights && Apply(s, w).flights[w.key].Ended?
    requires t == AfterFinish(Apply(s, w), w.key)
    ensures t.owners == Apply(s, w).owners && t.executions == Apply(s, w).executions
    ensures w.RestOwner? ==> t.owners == s.owners && t.executions == s.executions
  {
  }

  lemma RoundEffect(s: State, key: Key, items: seq<Execution>, w: Action, t: State)
    requires Front(s) && Round(s, key, items, w, t)
    ensures RoundLeaves(s, key, w, t)
  {
    var listed := AfterListExecutions(Reading(s, key), key, items);
    RoundReads(s, key, items);
    Listed(s, key, items);
    Finished(listed, w, t);
    ListedLeaves(s, key, listed, w, t, Select(items, s.owners[key].meta.uid));
  }

  lemma ListedLeaves(s: State, key: Key, listed: State, w: Action, t: State, last: Option<Execution>)
    requires key in s.owners && s.owners[key].meta.key == key && IsNewest(s.executions, s.owners[key].meta.uid, last)
    requires key in listed.flights && listed.flights[key] == OwnerListed(s.owners[key], last)
    requires listed.owners == s.owners && listed.executions == s.executions && Front(listed)
    requires OwnerWrite(w) && w.key == key && Enabled(listed, w)
    requires t.owners == Apply(listed, w).owners && t.executions == Apply(listed, w).executions
    ensures RoundLeaves(s, key, w, t)
  {
    if w.CreateExecution? {
      CreateEffect(s, key, listed, w, t);
    } else {
      Effect(s, key, listed, w, t, last);
    }
  }

  lemma CreateEffect(s: State, key: Key, listed: State, w: Action, t: State)
    requires key in s.owners && w.CreateExecution? && w.key == key && Enabled(listed, w) && Front(listed)
    requires listed.flights[key].owner == s.owners[key] && listed.owners == s.owners
    requires t.owners == Apply(listed, w).owners && t.executions == Apply(listed, w).executions
    ensures RoundLeaves(s, key, w, t)
  {
    CreateRound(listed, key, w.uid, w.name);
  }

  lemma Effect(s: State, key: Key, listed: State, w: Action, t: State, last: Option<Execution>)
    requires key in s.owners && s.owners[key].meta.key == key && IsNewest(s.executions, s.owners[key].meta.uid, last)
    requires key in listed.flights && listed.flights[key] == OwnerListed(s.owners[key], last)
    requires listed.owners == s.owners && listed.executions == s.executions
    requires (w.UpdateOwner? || w.RestOwner?) && w.key == key && Enabled(listed, w)
    requires t.owners == Apply(listed, w).owners && t.executions == Apply(listed, w).executions
    ensures RoundLeaves(s, key, w, t)
  {
    if w.UpdateOwner? {
      UpdateRound(listed, key);
    }
  }

  /** Which write a round makes is what its owner and newest execution call for. */
  lemma RoundWrite(s: State, key: Key, items: seq<Execution>, w: Action, t: State, last: Option<Execution>)
    requires Front(s) && Round(s, key, items, w, t) && IsNewest(s.executions, s.owners[key].meta.uid, last)
    ensures w.RestOwner? <==> Decide(s.owners[key], last).Rest?
    ensures w.CreateExecution? <==> Decide(s.owners[key], last).CreateRun?
  {
    RoundReads(s, key, items);
    NewestUnique(s.executions, s.owners[key].meta.uid, last, Select(items, s.owners[key].meta.uid));
    Listed(s, key, items);
    WriteFits(AfterListExecutions(Reading(s, key), key, items), w);
  }

  lemma WriteFits(s: State, w: Action)
    requires OwnerWrite(w) && Enabled(s, w)
    ensures w.key in s.flights && s.flights[w.key].OwnerListed?
    ensures var f := s.flights[w.key];
            && (w.RestOwner? <==> Decide(f.owner, f.last).Rest?)
            && (w.CreateExecution? <==> Decide(f.owner, f.last).CreateRun?)
  {
  }

  lemma ReadingBase(s: State, key: Key)
    requires Base(s) && key in s.owners && IsOwnerKind(key.kind) && key !in s.flights
    ensures Base(Reading(s, key))
  {
    PoppingBase(s, key);
    ReadingRuns(s, key);
    StepBase(Popping(s, key), GetOwner(key));
  }

  lemma PoppingBase(s: State, key: Key)
    requires Base(s) && key !in s.flights
    ensures Base(Popping(s, key))
  {
    PoppingRuns(s, key);
    StepBase(s, Requeue(key));
    StepBase(Apply(s, Requeue(key)), Pop(key));
  }

  lemma RoundBase(s: State, key: Key, items: seq<Execution>, w: Action, t: State)
    requires Base(s) && Round(s, key, items, w, t)
    ensures Base(t)
  {
    RoundReads(s, key, items);
    ReadingFront(s, key);
    ReadingBase(s, key);
    RoundRuns(s, key, items, w, t);
    var s3 := Reading(s, key);
    var s4 := Apply(s3, ListExecutions(key, items));
    StepBase(s3, ListExecutions(key, items));
    StepBase(s4, w);
    StepBase(Apply(s4, w), Finish(key));
  }

  /** What two rounds leave: an owner that rests. */
  lemma TwoRounds(s: State, t: State, u: State, key: Key, items: seq<Execution>, items': seq<Execution>, w: Action,
      w': Action)
    requires Front(s) && Front(t) && Round(s, key, items, w, t) && Round(t, key, items', w', u)
    ensures key in u.owners
    ensures exists last :: IsNewest(u.executions, u.owners[key].meta.uid, last) && Decide(u.owners[key], last).Rest?
  {
    RoundEffect(s, key, items, w, t);
    RoundEffect(t, key, items', w', u);
    SecondRound(s, t, u, key, items', w, w');
  }

  /** The second of two rounds creates nothing. */
  lemma SecondRound(s: State, t: State, u: State, key: Key, items: seq<Execution>, w: Action, w': Action)
    requires Front(t) && key in s.owners && OwnerWrite(w) && RoundLeaves(s, key, w, t)
    requires Round(t, key, items, w', u)
    ensures !w'.CreateExecution?
  {
    var o := s.owners[key];
    if w.CreateExecution? {
      var e :| IsNewest(t.executions, o.meta.uid, Some(e)) && !Decide(o, Some(e)).CreateRun?;
      RoundWrite(t, key, items, w', u, Some(e));
    } else {
      var last :| IsNewest(t.executions, o.meta.uid, last) && Decide(t.owners[key], last).Rest?;
      RoundWrite(t, key, items, w', u, last);
    }
  }

  /** From any reachable state: after two undisturbed reconciles of an owner the third writes nothing. */
  lemma FixpointInTwo(
      s: State, t: State, u: State, v: State, key: Key, freshReads: bool,
      items: seq<Execution>, items': seq<Execution>, items'': seq<Execution>, w: Action, w': Action, w'': Action)
    requires Reachable(s, freshReads)
    requires Round(s, key, items, w, t) && Round(t, key, items', w', u) && Round(u, key, items'', w'', v)
    ensures w''.RestOwner? && v.owners == u.owners && v.executions == u.executions
  {
    ReachableBase(s, freshReads);
    RoundBase(s, key, items, w, t);
    RoundBase(t, key, items', w', u);
    TwoRounds(s, t, u, key, items, items', w, w');
    var last :| IsNewest(u.executions, u.owners[key].meta.uid, last) && Decide(u.owners[key], last).Rest?;
    RoundWrite(u, key, items'', w'', v, last);
    RoundEffect(u, key, items'', w'', v);
  }
}
