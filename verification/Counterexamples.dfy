/**
 * Three concrete runs. A module is deleted and recreated under its name before its execution's Job is built;
 * an owner's spec is edited between the read and the create of its reconcile; an execution's status is
 * written between the list and the status update of its owner's reconcile.
 */
module Counterexamples {
  import opened Basics
  import opened Objects
  import opened Decisions
  import opened Selection
  import opened Protocol
  import opened Invariants
  import opened FrontSteps
  import opened ApiServer
  import opened Rounds
  import opened Measure
  import opened Termination

  const MODULE := Key(ModuleKind, "ns", "m")
  const EXECUTION := Key(ExecutionKind, "ns", "e")
  const TEMPLATE := Template(map[], ExecutionSpec("plan", ModuleRef("", ""), Engine("", "")))
  const OLD_SPEC := ModuleSpec("old", "", TEMPLATE)
  const NEW_SPEC := ModuleSpec("new", "", TEMPLATE)

  /** The store holds these owners and executions and no Jobs; every uid given out is below next. */
  ghost predicate Holds(s: State, owners: Owners, executions: Executions, flights: map<Key, Flight>, next: nat) {
    && Arrived(s, true)
    && s.owners == owners && s.executions == executions && s.jobs == map[] && s.flights == flights
    && s.log.newest == map[] && s.log.views == {map[]}
    && forall u :: u in s.log.home ==> u < next && s.log.home[u] in {MODULE, EXECUTION}
  }

  ghost predicate IsModule(o: Owner, uid: Uid, spec: OwnerSpec) {
    o.meta.key == MODULE && o.meta.uid == uid && o.spec == spec && o.status == NO_OWNER_STATUS
  }

  lemma CreateModule(s: State, executions: Executions, flights: map<Key, Flight>, uid: Uid, spec: OwnerSpec)
      returns (t: State, o: Owner)
    requires Holds(s, map[], executions, flights, uid) && spec.ModuleSpec?
    ensures Holds(t, map[MODULE := o], executions, flights, uid + 1) && IsModule(o, uid, spec)
    ensures t.dirty == s.dirty + {MODULE} && t.log.home == s.log.home[uid := MODULE]
  {
    var a := CreateOwner(MODULE, uid, spec);
    t := Apply(s, a);
    o := t.owners[MODULE];
    ArrivesOn(s, a, true);
  }

  lemma PopKey(s: State, owners: Owners, executions: Executions, flights: map<Key, Flight>, key: Key, next: nat)
      returns (t: State)
    requires Holds(s, owners, executions, flights, next) && key in s.dirty && key !in flights
    ensures Holds(t, owners, executions, flights[key := Popped], next) && t.log.home == s.log.home
  {
    t := Apply(s, Pop(key));
    ArrivesOn(s, Pop(key), true);
  }

  lemma GetModule(s: State, o: Owner, next: nat) returns (t: State)
    requires Holds(s, map[MODULE := o], map[], map[MODULE := Popped], next)
    ensures Holds(t, map[MODULE := o], map[], map[MODULE := OwnerGot(o)], next)
    ensures t.log.home == s.log.home
  {
    t := Apply(s, GetOwner(MODULE));
    ArrivesOn(s, GetOwner(MODULE), true);
  }

  lemma ListNone(s: State, o: Owner, next: nat) returns (t: State)
    requires Holds(s, map[MODULE := o], map[], map[MODULE := OwnerGot(o)], next) && o.meta.key == MODULE
    ensures Holds(t, map[MODULE := o], map[], map[MODULE := OwnerListed(o, None)], next)
    ensures t.log.home == s.log.home
  {
    t := Apply(s, ListExecutions(MODULE, []));
    ArrivesOn(s, ListExecutions(MODULE, []), true);
  }

  ghost predicate IsRun(e: Execution) {
    && e.meta.key == EXECUTION && e.meta.uid == 2 && e.meta.controller == Some(ControllerRef(ModuleKind, "m", 1))
    && e.spec.moduleRef == ModuleRef("ns", "m") && e.status == NO_EXECUTION_STATUS
  }

  lemma RunIsMade(o: Owner, now: nat, version: nat)
    requires IsModule(o, 1, OLD_SPEC)
    ensures IsRun(NewExecution(o, 2, "e", now, version))
    ensures Stamp(NewExecution(o, 2, "e", now, version)) == o.meta.generation
  {
    NewExecutionStamped(o, 2, "e", now, version);
  }

  lemma RunIsStored(s: State, key: Key, uid: Uid, name: string, e: Execution)
    requires key in s.flights && s.flights[key].OwnerListed?
    requires e == NewExecution(s.flights[key].owner, uid, name, s.now, s.log.version)
    ensures var t := AfterCreateExecution(s, key, uid, name);
            && t.owners == s.owners && t.jobs == s.jobs && t.executions == s.executions[e.meta.key := e]
            && t.flights == s.flights[key := Ended(Done)] && t.dirty == s.dirty + Wakes(e.meta)
            && t.log == Bump(s.log).(home := s.log.home[uid := e.meta.key])
  {
  }

  /** The reconcile holding o creates an execution; stored is the owner by then. */
  lemma CreateRun(s: State, stored: Owner, o: Owner) returns (t: State, e: Execution)
    requires Holds(s, map[MODULE := stored], map[], map[MODULE := OwnerListed(o, None)], 2) && IsModule(o, 1, OLD_SPEC)
    requires EXECUTION !in s.log.home.Values
    ensures Enabled(s, CreateExecution(MODULE, 2, "e")) && t == Apply(s, CreateExecution(MODULE, 2, "e"))
    ensures Holds(t, map[MODULE := stored], map[EXECUTION := e], map[MODULE := Ended(Done)], 3)
    ensures IsRun(e) && Stamp(e) == o.meta.generation && {MODULE, EXECUTION} <= t.dirty
  {
    CanCreateRun(s, stored, o);
    t := Apply(s, CreateExecution(MODULE, 2, "e"));
    ArrivesOn(s, CreateExecution(MODULE, 2, "e"), true);
    e := RunAppears(s, o);
    RunHolds(s, t, stored, o, e);
  }

  lemma RunAppears(s: State, o: Owner) returns (e: Execution)
    requires MODULE in s.flights && s.flights[MODULE] == OwnerListed(o, None) && IsModule(o, 1, OLD_SPEC)
    ensures IsRun(e) && Stamp(e) == o.meta.generation && RunAdded(s, AfterCreateExecution(s, MODULE, 2, "e"), e)
  {
    e := NewExecution(o, 2, "e", s.now, s.log.version);
    RunIsMade(o, s.now, s.log.version);
    RunIsStored(s, MODULE, 2, "e", e);
  }

  ghost predicate RunAdded(s: State, t: State, e: Execution) {
    && t.owners == s.owners && t.jobs == s.jobs && t.executions == s.executions[EXECUTION := e]
    && t.flights == s.flights[MODULE := Ended(Done)] && t.dirty == s.dirty + Wakes(e.meta)
    && t.log == Bump(s.log).(home := s.log.home[2 := EXECUTION])
  }

  lemma RunHolds(s: State, t: State, stored: Owner, o: Owner, e: Execution)
    requires Holds(s, map[MODULE := stored], map[], map[MODULE := OwnerListed(o, None)], 2) && IsRun(e)
    requires RunAdded(s, t, e) && Arrived(t, true)
    ensures Holds(t, map[MODULE := stored], map[EXECUTION := e], map[MODULE := Ended(Done)], 3)
    ensures {MODULE, EXECUTION} <= t.dirty
  {
  }

  lemma CanCreateRun(s: State, stored: Owner, o: Owner)
    requires Holds(s, map[MODULE := stored], map[], map[MODULE := OwnerListed(o, None)], 2) && o.meta.key == MODULE
    requires EXECUTION !in s.log.home.Values
    ensures Enabled(s, CreateExecution(MODULE, 2, "e"))
  {
    assert !Used(s.log.home, EXECUTION);
  }

  lemma DeleteModule(s: State, o: Owner, e: Execution) returns (t: State)
    requires Holds(s, map[MODULE := o], map[EXECUTION := e], map[MODULE := Ended(Done)], 3) && EXECUTION in s.dirty
    ensures Holds(t, map[], map[EXECUTION := e], map[MODULE := Ended(Done)], 3) && EXECUTION in t.dirty
  {
    t := Apply(s, DeleteOwner(MODULE));
    ArrivesOn(s, DeleteOwner(MODULE), true);
  }

  lemma GetRun(s: State, o: Owner, e: Execution) returns (t: State)
    requires Holds(s, map[MODULE := o], map[EXECUTION := e], map[MODULE := Ended(Done), EXECUTION := Popped], 4)
    ensures Holds(t, map[MODULE := o], map[EXECUTION := e], map[MODULE := Ended(Done), EXECUTION := ExecGot(e)], 4)
  {
    t := Apply(s, GetExecution(EXECUTION));
    ArrivesOn(s, GetExecution(EXECUTION), true);
  }

  lemma ListNoJobs(s: State, o: Owner, e: Execution) returns (t: State)
    requires Holds(s, map[MODULE := o], map[EXECUTION := e], map[MODULE := Ended(Done), EXECUTION := ExecGot(e)], 4)
    ensures Holds(t, map[MODULE := o], map[EXECUTION := e], map[MODULE := Ended(Done), EXECUTION := ExecJobless(e)], 4)
  {
    t := Apply(s, ListJobs(EXECUTION, map[], []));
    ArrivesOn(s, ListJobs(EXECUTION, map[], []), true);
  }

  lemma ReadReplacement(s: State, o: Owner, e: Execution) returns (t: State)
    requires Holds(s, map[MODULE := o], map[EXECUTION := e], map[MODULE := Ended(Done), EXECUTION := ExecJobless(e)], 4)
    requires IsRun(e)
    ensures Holds(t, map[MODULE := o], map[EXECUTION := e], map[MODULE := Ended(Done), EXECUTION := ExecModule(e, o)],
            4)
  {
    t := Apply(s, ReadModule(EXECUTION));
    ArrivesOn(s, ReadModule(EXECUTION), true);
  }

  lemma BuildJob(s: State, o: Owner, e: Execution) returns (t: State, j: Key)
    requires Holds(s, map[MODULE := o], map[EXECUTION := e],
             map[MODULE := Ended(Done), EXECUTION := ExecModule(e, o)], 4)
    requires IsRun(e) && IsModule(o, 3, NEW_SPEC)
    ensures Arrived(t, true) && t.executions == map[EXECUTION := e] && j in t.jobs && ControlledBy(t.jobs[j].meta, 2)
    ensures t.jobs[j].spec.moduleUid == 3 && t.jobs[j].spec.source == "new"
  {
    var a := CreateJob(EXECUTION, 4, "j", "image");
    j := Key(JobKind, "ns", "j");
    assert !Used(s.log.home, j);
    t := Apply(s, a);
    ArrivesOn(s, a, true);
  }

  lemma Start() returns (s: State)
    ensures Holds(s, map[], map[], map[], 1) && s.log.home == map[]
  {
    s := State(map[], map[], map[], 0, {}, map[], Log(0, map[], map[], map[], map[], {map[]}));
    StartsArrived(s, true);
  }

  /** Up to a reconcile that has read its module and found no execution. */
  lemma ListedRun() returns (s: State, o: Owner)
    ensures Holds(s, map[MODULE := o], map[], map[MODULE := OwnerListed(o, None)], 2) && IsModule(o, 1, OLD_SPEC)
    ensures EXECUTION !in s.log.home.Values
  {
    s := Start();
    s, o := CreateModule(s, map[], map[], 1, OLD_SPEC);
    assert EXECUTION !in s.log.home.Values;
    s := PopKey(s, map[MODULE := o], map[], map[], MODULE, 2);
    s := GetModule(s, o, 2);
    s := ListNone(s, o, 2);
  }

  /** Up to an execution whose module has gone. */
  lemma OrphanRun() returns (s: State, e: Execution)
    ensures Holds(s, map[], map[EXECUTION := e], map[MODULE := Ended(Done)], 3) && IsRun(e) && EXECUTION in s.dirty
  {
    var o: Owner;
    s, o := ListedRun();
    s, e := CreateRun(s, o, o);
    s := DeleteModule(s, o, e);
  }

  /**
   * So a Job of a module's execution need not come from that module: here the execution was made for the
   * module with uid 1 and its Job clones what the module with uid 3 calls for.
   */
  lemma JobFromReplacedModule() returns (s: State, j: Key)
    ensures Reachable(s, true) && EXECUTION in s.executions && j in s.jobs
    ensures ControlledBy(s.jobs[j].meta, s.executions[EXECUTION].meta.uid)
    ensures s.executions[EXECUTION].meta.controller == Some(ControllerRef(ModuleKind, "m", 1))
    ensures s.jobs[j].spec.moduleUid == 3 && s.jobs[j].spec.source == "new"
  {
    var t, e := OrphanRun();
    var o: Owner;
    t, o := CreateModule(t, map[EXECUTION := e], map[MODULE := Ended(Done)], 3, NEW_SPEC);
    t := PopKey(t, map[MODULE := o], map[EXECUTION := e], map[MODULE := Ended(Done)], EXECUTION, 4);
    t := GetRun(t, o, e);
    t := ListNoJobs(t, o, e);
    t := ReadReplacement(t, o, e);
    s, j := BuildJob(t, o, e);
    ArrivedExactly(s, true);
  }

  lemma EditModule(s: State, o: Owner) returns (t: State, edited: Owner)
    requires Holds(s, map[MODULE := o], map[], map[MODULE := OwnerListed(o, None)], 2) && IsModule(o, 1, OLD_SPEC)
    ensures Holds(t, map[MODULE := edited], map[], map[MODULE := OwnerListed(o, None)], 2) && t.log.home == s.log.home
    ensures edited.meta.uid == 1 && edited.meta.generation == o.meta.generation + 1
  {
    t := Apply(s, EditSpec(MODULE, NEW_SPEC));
    edited := t.owners[MODULE];
    ArrivesOn(s, EditSpec(MODULE, NEW_SPEC), true);
  }

  lemma StillUnmade(s: State, t: State, edited: Owner, e: Execution)
    requires s.owners == map[MODULE := edited] && s.executions == map[]
    requires t.owners == s.owners && t.executions == map[EXECUTION := e]
    requires Stamp(e) != edited.meta.generation
    ensures Unmade(s.owners, s.executions) == {MODULE} == Unmade(t.owners, t.executions)
  {
    assert !StampedNow(t.executions, edited);
  }

  lemma NewlyJobless(s: State, t: State, e: Execution)
    requires s.executions == map[] && t.executions == map[EXECUTION := e] && s.jobs == map[] == t.jobs
    ensures WithoutJob(s.executions, s.jobs) == {} && WithoutJob(t.executions, t.jobs) == {EXECUTION}
  {
    assert Jobless(t.jobs, e.meta.uid);
  }

  /**
   * So the counts of the store alone do not bound the writes to come: here a reconcile holding the old
   * generation creates an execution that the edited owner has no use for, and the counts get worse.
   */
  lemma CreateFromOldCopy() returns (s: State)
    ensures Reachable(s, true)
    ensures var a := CreateExecution(MODULE, 2, "e");
            && Enabled(s, a) && Quiet(a) && FreshRead(s, a) && Writes(s, a)
            && RankOf(Apply(s, a)).unmade == RankOf(s).unmade && RankOf(s).jobless < RankOf(Apply(s, a)).jobless
            && !BelowInStore(RankOf(Apply(s, a)), RankOf(s))
  {
    var listed, o := ListedRun();
    var edited: Owner;
    s, edited := EditModule(listed, o);
    var t, e := CreateRun(s, edited, o);
    StillUnmade(s, t, edited, e);
    NewlyJobless(s, t, e);
    ArrivedExactly(s, true);
  }

  // ---------- an old copy of an execution ----------

  lemma FinishModule(s: State, o: Owner, e: Execution) returns (t: State)
    requires Holds(s, map[MODULE := o], map[EXECUTION := e], map[MODULE := Ended(Done)], 3)
    ensures Holds(t, map[MODULE := o], map[EXECUTION := e], map[], 3) && t.dirty == s.dirty
  {
    t := Apply(s, Finish(MODULE));
    assert t.flights == map[];
    ArrivesOn(s, Finish(MODULE), true);
  }

  lemma RunListed(e: Execution)
    requires IsRun(e)
    ensures Select([e], 1) == Some(e)
  {
    SelectIsScan([e], 1);
    assert [e][..0] == [] && Scan([e][..0], 1) == None;
  }

  /** The module's reconcile has listed its execution, which has no status yet. */
  lemma RunListedRun() returns (s: State, o: Owner, e: Execution)
    ensures IsModule(o, 1, OLD_SPEC) && IsRun(e) && EXECUTION in s.dirty
    ensures Holds(s, map[MODULE := o], map[EXECUTION := e], map[MODULE := OwnerListed(o, Some(e))], 3)
  {
    var t: State;
    t, o := ListedRun();
    t, e := CreateRun(t, o, o);
    t := FinishModule(t, o, e);
    s := Busy(t, MODULE, OwnerListed(o, Some(e)));
    ListRun(t, o, e);
  }

  lemma ListRun(s: State, o: Owner, e: Execution)
    requires Arrived(s, true) && MODULE in s.dirty && s.flights == map[] && IsRun(e)
    requires s.owners == map[MODULE := o] && s.executions == map[EXECUTION := e] && IsModule(o, 1, OLD_SPEC)
    ensures Arrived(Busy(s, MODULE, OwnerListed(o, Some(e))), true)
  {
    OwnerGetTo(s, MODULE, true);
    RunListed(e);
    OwnerListTo(s, MODULE, o, [e], true);
  }

  /** Meanwhile the execution gets its Job and shows it. */
  lemma ShownMeanwhile(s: State, o: Owner, e: Execution) returns (t: State, shown: Execution)
    requires IsModule(o, 1, OLD_SPEC) && IsRun(e) && EXECUTION in s.dirty
    requires Holds(s, map[MODULE := o], map[EXECUTION := e], map[MODULE := OwnerListed(o, Some(e))], 3)
    ensures Arrived(t, true) && t.owners == s.owners && t.flights == s.flights
    ensures t.executions == map[EXECUTION := shown]
    ensures SameChild(e, shown) && shown.status.phase == Pending
  {
    assert !Used(s.log.home, Key(JobKind, "ns", "j"));
    var j := JobRound(s, EXECUTION, 3, "j", true);
    t, shown := JobShown(WithJob(s, j, 2), e, j);
  }

  lemma JobShown(s: State, e: Execution, j: Job) returns (t: State, shown: Execution)
    requires Arrived(s, true) && EXECUTION in s.dirty && EXECUTION !in s.flights && IsRun(e)
    requires s.executions == map[EXECUTION := e] && s.jobs == map[j.meta.key := j] && s.jobs in s.log.views
    requires j.meta.key.ns == "ns" && ControlledBy(j.meta, 2) && j.status == NO_JOB_STATUS
    ensures Arrived(t, true) && t.owners == s.owners && t.flights == s.flights
    ensures t.executions == map[EXECUTION := shown]
    ensures SameChild(e, shown) && shown.status.phase == Pending
  {
    JobListedTo(s, e, j);
    ShowTo(s, EXECUTION, j, true);
    t, shown := PendingShown(s, e, j);
  }

  lemma PendingShown(s: State, e: Execution, j: Job) returns (t: State, shown: Execution)
    requires IsRun(e) && s.executions == map[EXECUTION := e] && j.status == NO_JOB_STATUS
    ensures t == Shown(s, EXECUTION, NextStatus(e.status, j)) && t.owners == s.owners && t.flights == s.flights
    ensures t.executions == map[EXECUTION := shown] && SameChild(e, shown) && shown.status.phase == Pending
  {
    t := Shown(s, EXECUTION, NextStatus(e.status, j));
    shown := t.executions[EXECUTION];
  }

  lemma JobListedTo(s: State, e: Execution, j: Job)
    requires Arrived(s, true) && EXECUTION in s.dirty && EXECUTION !in s.flights && IsRun(e)
    requires s.executions == map[EXECUTION := e] && s.jobs == map[j.meta.key := j] && s.jobs in s.log.views
    requires j.meta.key.ns == "ns" && ControlledBy(j.meta, 2)
    ensures Arrived(Busy(s, EXECUTION, ExecJob(e, j, [])), true)
  {
    GetTo(s, EXECUTION, true);
    OneListed(s.jobs, j);
    ListTo(s, EXECUTION, e, s.jobs, [j], true);
  }

  lemma OneListed(jobs: Jobs, j: Job)
    requires jobs == map[j.meta.key := j] && j.meta.key.ns == "ns" && ControlledBy(j.meta, 2)
    ensures IsListing(jobs, "ns", [j]) && Sort(Owned([j], 2)) == [j] && [j][1..] == []
  {
    SortOne(j, 2);
  }

  lemma MirrorOfOldCopy(s: State, o: Owner, e: Execution, shown: Execution)
    requires IsModule(o, 1, OLD_SPEC) && IsRun(e) && SameChild(e, shown) && shown.status.phase == Pending
    requires s.owners == map[MODULE := o] && s.executions == map[EXECUTION := shown]
    requires MODULE in s.flights && s.flights[MODULE] == OwnerListed(o, Some(e))
    ensures Enabled(s, UpdateOwner(MODULE)) && OwnerCurrent(s, o) && IsNewest(s.executions, 1, Some(shown))
  {
    assert !IsTerminal(e.status.phase);
  }

  /**
   * Nor when the copy held is of the execution: here it was listed before its status was written, so the
   * owner's status update shows the old phase, and all five counts stay as they were.
   */
  lemma MirrorFromOldCopy() returns (s: State)
    ensures Reachable(s, true)
    ensures var a := UpdateOwner(MODULE);
            && Enabled(s, a) && Quiet(a) && FreshRead(s, a) && Writes(s, a)
            && !BelowInStore(RankOf(Apply(s, a)), RankOf(s))
  {
    var t, o, e := RunListedRun();
    var shown: Execution;
    s, shown := ShownMeanwhile(t, o, e);
    MirrorOfOldCopy(s, o, e, shown);
    ArrivedExactly(s, true);
    MirroringAnOldCopyGainsNothing(s, MODULE, shown, true);
    MirrorIsUseless(s);
  }

  lemma MirrorIsUseless(s: State)
    requires CanUpdateOwner(s, MODULE) && SameInStore(RankOf(AfterUpdateOwner(s, MODULE)), RankOf(s))
    ensures !BelowInStore(RankOf(Apply(s, UpdateOwner(MODULE))), RankOf(s))
  {
  }
}
