/** A run with an old Job list, which ends at rest with two Jobs of one execution. */
module Duplicates {
  import opened Basics
  import opened Objects
  import opened Decisions
  import opened Selection
  import opened Protocol
  import opened Invariants
  import opened ApiServer
  import opened Rounds
  import opened Pruning
  import opened Settling

  const MODULE := Key(ModuleKind, "ns", "m")
  const EXECUTION := Key(ExecutionKind, "ns", "e")
  const FIRST := Key(JobKind, "ns", "a")
  const SECOND := Key(JobKind, "ns", "b")
  const RUN_SPEC := ExecutionSpec("plan", ModuleRef("ns", "m"), Engine("", ""))
  const MODULE_SPEC := ModuleSpec("source", "", Template(map[], RUN_SPEC))
  const FINISHED := JobStatus(0, 1, 0, false, false, None, None)

  /** What the run has stored so far; both MODULE and EXECUTION are dirty, and nothing is in flight. */
  ghost predicate Stored(s: State, o: Owner, x: Execution, jobs: Jobs, now: nat, next: nat) {
    && Arrived(s, false) && s.owners == map[MODULE := o] && s.executions == map[EXECUTION := x] && s.jobs == jobs
    && s.now == now && s.dirty == {MODULE, EXECUTION} && s.flights == map[]
    && map[] in s.log.views && jobs in s.log.views
    && forall u :: u in s.log.home ==> u < next
  }

  ghost predicate Parts(o: Owner, x: Execution) {
    && o.meta.key == MODULE && o.spec == MODULE_SPEC
    && x.meta.key == EXECUTION && x.meta.uid == 2 && x.meta.controller == None && x.spec == RUN_SPEC
  }

  ghost predicate IsJob(j: Job, key: Key, created: nat) {
    j.meta.key == key && j.meta.created == created && ControlledBy(j.meta, 2) && Wakes(j.meta) == {EXECUTION}
  }

  lemma Setup() returns (s: State, o: Owner, x: Execution)
    ensures Stored(s, o, x, map[], 0, 3) && Parts(o, x) && x.status == NO_EXECUTION_STATUS
    ensures s.log.newest == map[] && s.log.home == map[1 := MODULE, 2 := EXECUTION]
  {
    var s0 := State(map[], map[], map[], 0, {}, map[], Log(0, map[], map[], map[], map[], {map[]}));
    StartsArrived(s0, false);
    var s1 := WithModule(s0);
    s, x := WithExecution(s1);
    o := s1.owners[MODULE];
  }

  lemma WithModule(s: State) returns (t: State)
    requires Arrived(s, false) && Initial(s) && s.now == 0
    ensures Arrived(t, false) && t.owners.Keys == {MODULE} && t.executions == map[] && t.jobs == map[] && t.now == 0
    ensures t.owners[MODULE].meta.key == MODULE && t.owners[MODULE].spec == MODULE_SPEC
    ensures t.dirty == {MODULE} && t.flights == map[] && t.log.views == {map[]} && t.log.newest == map[]
    ensures t.log.home == map[1 := MODULE]
  {
    var a := CreateOwner(MODULE, 1, MODULE_SPEC);
    t := Apply(s, a);
    ArrivesOn(s, a, false);
  }

  lemma WithExecution(s: State) returns (t: State, x: Execution)
    requires Arrived(s, false) && s.executions == map[] && s.log.home == map[1 := MODULE]
    ensures Arrived(t, false) && t.owners == s.owners && t.jobs == s.jobs && t.now == s.now && t.flights == s.flights
    ensures t.executions == map[EXECUTION := x] && t.dirty == s.dirty + {EXECUTION}
    ensures t.log.views == s.log.views && t.log.newest == s.log.newest
    ensures t.log.home == map[1 := MODULE, 2 := EXECUTION]
    ensures x.meta.key == EXECUTION && x.meta.uid == 2 && x.meta.controller == None
    ensures x.spec == RUN_SPEC && x.status == NO_EXECUTION_STATUS
  {
    var a := CreateLoose(EXECUTION, 2, RUN_SPEC, map[]);
    t := Apply(s, a);
    x := t.executions[EXECUTION];
    ArrivesOn(s, a, false);
  }

  /** A reconcile that lists no Job, as there was none at first, makes one more. */
  lemma OneMore(s: State, o: Owner, x: Execution, jobs: Jobs, now: nat, uid: Uid, name: string)
      returns (t: State, j: Job)
    requires Stored(s, o, x, jobs, now, uid) && Parts(o, x) && NewJobId(s, x, uid, name)
    ensures IsJob(j, Key(JobKind, "ns", name), now) && j.status == NO_JOB_STATUS
    ensures Stored(t, o, x, jobs[j.meta.key := j], now, uid + 1)
    ensures t.log.newest == s.log.newest[2 := j.meta] && t.log.home == s.log.home[uid := j.meta.key]
  {
    j := JobRound(s, EXECUTION, uid, name, false);
    t := WithJob(s, j, 2);
  }

  lemma OneTick(s: State, o: Owner, x: Execution, jobs: Jobs, now: nat, next: nat) returns (t: State)
    requires Stored(s, o, x, jobs, now, next)
    ensures Stored(t, o, x, jobs, now + 1, next) && t.log == s.log
  {
    t := Apply(s, Tick);
    ArrivesOn(s, Tick, false);
  }

  lemma FinishSecond(s: State, o: Owner, x: Execution, a: Job, b: Job) returns (t: State, b': Job)
    requires Stored(s, o, x, map[FIRST := a, SECOND := b], 1, 5) && IsJob(b, SECOND, 1) && b.status == NO_JOB_STATUS
    ensures IsJob(b', SECOND, 1) && b'.status == FINISHED
    ensures Stored(t, o, x, map[FIRST := a, SECOND := b'], 1, 5)
  {
    b' := b.(status := FINISHED);
    t := Apply(s, JobProgress(SECOND, FINISHED));
    assert s.jobs[SECOND := b'] == map[FIRST := a, SECOND := b'];
    ArrivesOn(s, JobProgress(SECOND, FINISHED), false);
  }

  /** Two Jobs of the execution, the newer one finished. */
  lemma TwoJobs() returns (s: State, o: Owner, x: Execution, a: Job, b: Job)
    ensures Parts(o, x) && x.status == NO_EXECUTION_STATUS && IsJob(a, FIRST, 0) && IsJob(b, SECOND, 1)
    ensures b.status == FINISHED
    ensures Stored(s, o, x, map[FIRST := a, SECOND := b], 1, 5)
  {
    s, o, x := Setup();
    assert !Used(s.log.home, FIRST);
    s, a := OneMore(s, o, x, map[], 0, 3, "a");
    s := OneTick(s, o, x, map[FIRST := a], 0, 4);
    assert !Used(s.log.home, SECOND);
    s, b := OneMore(s, o, x, map[FIRST := a], 1, 4, "b");
    s, b := FinishSecond(s, o, x, a, b);
  }

  lemma BothListed(a: Job, b: Job)
    requires IsJob(a, FIRST, 0) && IsJob(b, SECOND, 1)
    ensures IsListing(map[FIRST := a, SECOND := b], "ns", [b, a]) && Sort(Owned([b, a], 2)) == [b, a]
  {
    SortTwo(b, a, 2);
  }

  /** The reconcile has listed both, afresh, and selected the newer. */
  lemma BothTo(s: State, o: Owner, x: Execution, a: Job, b: Job)
    requires Stored(s, o, x, map[FIRST := a, SECOND := b], 1, 5) && Parts(o, x)
    requires IsJob(a, FIRST, 0) && IsJob(b, SECOND, 1)
    ensures Arrived(Busy(s, EXECUTION, ExecGot(x)), false)
    ensures Arrived(Busy(s, EXECUTION, ExecJob(x, b, [a])), false)
  {
    GetTo(s, EXECUTION, false);
    BothListed(a, b);
    ListTo(s, EXECUTION, x, s.jobs, [b, a], false);
    assert [b, a][0] == b && [b, a][1..] == [a];
  }

  /** The delete of the older fails, and the newer one's phase is shown. */
  lemma ShowSecond(s: State, o: Owner, x: Execution, a: Job, b: Job) returns (t: State, y: Execution)
    requires Stored(s, o, x, map[FIRST := a, SECOND := b], 1, 5) && Parts(o, x) && x.status == NO_EXECUTION_STATUS
    requires IsJob(a, FIRST, 0) && IsJob(b, SECOND, 1) && b.status == FINISHED
    ensures Parts(o, y) && y.status == NextStatus(y.status, b) && y.status.phase == Succeeded
    ensures Stored(t, o, y, map[FIRST := a, SECOND := b], 1, 5)
  {
    BothTo(s, o, x, a, b);
    KeepTo(s, EXECUTION, x, b, a, false);
    ShowTo(s, EXECUTION, b, false);
    t, y := SecondShown(s, o, x, a, b);
  }

  lemma SecondShown(s: State, o: Owner, x: Execution, a: Job, b: Job) returns (t: State, y: Execution)
    requires Stored(s, o, x, map[FIRST := a, SECOND := b], 1, 5) && Parts(o, x) && b.status == FINISHED
    requires Arrived(Shown(s, EXECUTION, NextStatus(x.status, b)), false)
    ensures t == Shown(s, EXECUTION, NextStatus(x.status, b))
    ensures Parts(o, y) && y.status == NextStatus(y.status, b) && y.status.phase == Succeeded
    ensures Stored(t, o, y, map[FIRST := a, SECOND := b], 1, 5)
  {
    t := Shown(s, EXECUTION, NextStatus(x.status, b));
    y := t.executions[EXECUTION];
    assert Wakes(x.meta) == {EXECUTION};
    assert t.dirty == s.dirty;
  }

  /** A reconcile whose status is final, whose list is fresh, and whose only delete fails. */
  lemma ForgottenDelete() returns (s: State, t: State, items: seq<Job>)
    ensures FreshList(s, EXECUTION, items, false) && Pruned(s, EXECUTION, items, [false], t) && FinalShown(t, EXECUTION)
  {
    var u, o, x, a, b := TwoJobs();
    u, x := ShowSecond(u, o, x, a, b);
    BothTo(u, o, x, a, b);
    s := Busy(u, EXECUTION, ExecGot(x));
    items := [b, a];
    t := ForgottenIn(s, x, a, b);
  }

  lemma ForgottenIn(s: State, x: Execution, a: Job, b: Job) returns (t: State)
    requires Arrived(s, false) && EXECUTION in s.flights && s.flights[EXECUTION] == ExecGot(x)
    requires x.meta.key == EXECUTION && x.meta.uid == 2 && s.jobs == map[FIRST := a, SECOND := b]
    requires s.jobs in s.log.views
    requires IsJob(a, FIRST, 0) && IsJob(b, SECOND, 1)
    requires x.status == NextStatus(x.status, b) && x.status.phase == Succeeded
    ensures FreshList(s, EXECUTION, [b, a], false) && Pruned(s, EXECUTION, [b, a], [false], t)
    ensures FinalShown(t, EXECUTION)
  {
    BothListed(a, b);
    FreshlyListed(s, x, [b, a]);
    t := PrunedNone(s, x, a, b);
  }

  lemma FreshlyListed(s: State, x: Execution, items: seq<Job>)
    requires Arrived(s, false) && EXECUTION in s.flights && s.flights[EXECUTION] == ExecGot(x)
    requires x.meta.key == EXECUTION && s.jobs in s.log.views && IsListing(s.jobs, "ns", items)
    ensures FreshList(s, EXECUTION, items, false)
  {
    ArrivedExactly(s, false);
  }

  lemma PrunedNone(s: State, x: Execution, a: Job, b: Job) returns (t: State)
    requires CanListJobs(s, EXECUTION, s.jobs, [b, a])
    requires s.flights[EXECUTION] == ExecGot(x) && x.meta.uid == 2 && Sort(Owned([b, a], 2)) == [b, a]
    requires x.status == NextStatus(x.status, b) && x.status.phase == Succeeded
    ensures Pruned(s, EXECUTION, [b, a], [false], t) && FinalShown(t, EXECUTION)
  {
    ListedIn(s, x, a, b);
    t := KeptBoth(AfterListJobs(s, EXECUTION, [b, a]), x, a, b);
  }

  lemma KeptBoth(s: State, x: Execution, a: Job, b: Job) returns (t: State)
    requires EXECUTION in s.flights && s.flights[EXECUTION] == ExecJob(x, b, [a])
    requires x.status == NextStatus(x.status, b) && x.status.phase == Succeeded
    ensures t == PruneLoop(s, EXECUTION, [false]) && FinalShown(t, EXECUTION)
  {
    t := PruneLoop(s, EXECUTION, [false]);
    PruneLoopRemoves(s, EXECUTION, [false]);
  }

  lemma ListedIn(s: State, x: Execution, a: Job, b: Job)
    requires EXECUTION in s.flights && s.flights[EXECUTION] == ExecGot(x) && x.meta.uid == 2
    requires Sort(Owned([b, a], 2)) == [b, a]
    ensures var t := AfterListJobs(s, EXECUTION, [b, a]);
            EXECUTION in t.flights && t.flights[EXECUTION] == ExecJob(x, b, [a])
  {
    assert [b, a][1..] == [a];
  }

  /** The module goes, so that nothing is left to do. */
  lemma DropModule(s: State, o: Owner) returns (t: State)
    requires Arrived(s, false) && s.owners == map[MODULE := o] && s.dirty == {MODULE} && s.flights == map[]
    ensures Arrived(t, false) && Quiescent(t) && t.executions == s.executions && t.jobs == s.jobs
  {
    var u := Apply(s, DeleteOwner(MODULE));
    ArrivesOn(s, DeleteOwner(MODULE), false);
    PopTo(u, MODULE, false);
    BusyOn(u, MODULE, Popped, GetOwner(MODULE), Ended(Done), false);
    FinishTo(u, MODULE, false);
    t := u.(dirty := u.dirty - {MODULE});
  }

  /**
   * So pruning need not leave one Job: nothing is queued or in flight, the execution has finished, and it
   * owns two Jobs.
   */
  lemma TwoJobsAtRest() returns (s: State)
    ensures Reachable(s, false) && Quiescent(s)
    ensures EXECUTION in s.executions && s.executions[EXECUTION].status.phase == Succeeded
    ensures FIRST in s.jobs && SECOND in s.jobs && FIRST != SECOND
    ensures ControlledBy(s.jobs[FIRST].meta, s.executions[EXECUTION].meta.uid)
    ensures ControlledBy(s.jobs[SECOND].meta, s.executions[EXECUTION].meta.uid)
  {
    var u, o, x, a, b := TwoJobs();
    u, x := ShowSecond(u, o, x, a, b);
    KeepBoth(u, o, x, a, b);
    s := DropModule(u.(dirty := u.dirty - {EXECUTION}), o);
    ArrivedExactly(s, false);
  }

  /** A reconcile that finds the final status shown, and fails to delete the older Job, is the last. */
  lemma KeepBoth(s: State, o: Owner, x: Execution, a: Job, b: Job)
    requires Stored(s, o, x, map[FIRST := a, SECOND := b], 1, 5) && Parts(o, x)
    requires IsJob(a, FIRST, 0) && IsJob(b, SECOND, 1)
    requires x.status == NextStatus(x.status, b) && x.status.phase == Succeeded
    ensures Arrived(s.(dirty := s.dirty - {EXECUTION}), false)
  {
    BothTo(s, o, x, a, b);
    KeepTo(s, EXECUTION, x, b, a, false);
    UnchangedTo(s, EXECUTION, x, b, false);
  }
}
