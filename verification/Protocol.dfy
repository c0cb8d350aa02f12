/**
 * The three reconcilers, the work queue, the object store and their environment as one transition
 * system. A reconcile is split at its API calls, so anything may happen between two of them.
 */
module Protocol {
  import opened Basics
  import opened Objects
  import opened Decisions
  import opened Selection

  /** What a reconcile returns to the work queue. */
  datatype Outcome = Done | RequeueNow | RequeueLater | Error

  /** How far the reconcile of one key has come, with the copies it holds. */
  datatype Flight =
    | Popped
    | OwnerGot(owner: Owner)
    | OwnerListed(owner: Owner, last: Option<Execution>)
    | ExecGot(exec: Execution)
    | ExecJobless(exec: Execution)
    | ExecModule(exec: Execution, mod: Owner)
    | ExecJob(exec: Execution, latest: Job, stale: seq<Job>)
    | Ended(outcome: Outcome)

  /**
   * version is the next resource version. The rest is history that no reconcile reads: home is the key each
   * uid was given, specs every owner spec ever stored, made every Job ever created, newest the last one
   * made for an execution uid, views every content the Jobs ever had.
   */
  datatype Log = Log(
    version: nat,
    home: map<Uid, Key>,
    specs: map<(Uid, int), OwnerSpec>,
    made: map<Key, Meta>,
    newest: map<Uid, Meta>,
    views: set<map<Key, Job>>)

  /** owners, executions and jobs are the store; dirty and flights are the work queue. */
  datatype State = State(
    owners: map<Key, Owner>,
    executions: map<Key, Execution>,
    jobs: map<Key, Job>,
    now: nat,
    dirty: set<Key>,
    flights: map<Key, Flight>,
    log: Log)

  datatype Action =
    // users, the Job controller, the garbage collector, the clock
    | CreateOwner(key: Key, uid: Uid, spec: OwnerSpec)
    | EditSpec(key: Key, spec: OwnerSpec)
    | TouchOwner(key: Key)
    | DeleteOwner(key: Key)
    | CreateLoose(key: Key, uid: Uid, execSpec: ExecutionSpec, annotations: map<string, string>)
    | TouchExecution(key: Key)
    | DeleteExecution(key: Key)
    | JobProgress(key: Key, status: JobStatus)
    | DeleteOrphan(key: Key)
    | Tick
    // the work queue
    | Requeue(key: Key)
    | Restart
    | Pop(key: Key)
    | Fail(key: Key)
    | Finish(key: Key)
    // the module and stack reconcilers
    | GetOwner(key: Key)
    | ListExecutions(key: Key, executions: seq<Execution>)
    | CreateExecution(key: Key, uid: Uid, name: string)
    | UpdateOwner(key: Key)
    | RestOwner(key: Key)
    // the execution reconciler
    | GetExecution(key: Key)
    | ListJobs(key: Key, view: map<Key, Job>, jobs: seq<Job>)
    | ReadModule(key: Key)
    | CreateJob(key: Key, uid: Uid, name: string, defaultImage: string)
    | PruneJob(key: Key, deleted: bool)
    | UpdateExecution(key: Key)

  predicate Initial(s: State) {
    && s.owners == map[] && s.executions == map[] && s.jobs == map[]
    && s.dirty == {} && s.flights == map[]
    && s.log == Log(s.log.version, map[], map[], map[], map[], {map[]})
  }

  predicate Used(home: map<Uid, Key>, key: Key) {
    exists uid :: uid in home && home[uid] == key
  }

  function Bump(log: Log): Log {
    log.(version := log.version + 1)
  }

  // ---------- environment ----------

  predicate CanCreateOwner(s: State, key: Key, uid: Uid, spec: OwnerSpec) {
    && IsOwnerKind(key.kind) && key !in s.owners && uid !in s.log.home
    && (key.kind == ModuleKind <==> spec.ModuleSpec?)
  }

  function AfterCreateOwner(s: State, key: Key, uid: Uid, spec: OwnerSpec): State {
    var o := Object(Meta(key, uid, None, s.now, 1, s.log.version, map[]), spec, NO_OWNER_STATUS);
    PutOwner(s, o).(log := Bump(s.log).(home := s.log.home[uid := key], specs := s.log.specs[(uid, 1) := spec]))
  }

  /** Stores o under its key with a new version and wakes it. */
  function PutOwner(s: State, o: Owner): State {
    s.(owners := s.owners[o.meta.key := o.(meta := o.meta.(version := s.log.version))],
       dirty := s.dirty + {o.meta.key}, log := Bump(s.log))
  }

  predicate CanEditSpec(s: State, key: Key, spec: OwnerSpec) {
    key in s.owners && (key.kind == ModuleKind <==> spec.ModuleSpec?)
  }

  function AfterEditSpec(s: State, key: Key, spec: OwnerSpec): State
    requires key in s.owners
  {
    var o := s.owners[key];
    var gen := o.meta.generation + 1;
    PutOwner(s, Object(o.meta.(generation := gen), spec, o.status)).(
      log := Bump(s.log).(specs := s.log.specs[(o.meta.uid, gen) := spec]))
  }

  function AfterDeleteOwner(s: State, key: Key): State {
    s.(owners := s.owners - {key}, dirty := s.dirty + {key})
  }

  /** Stores e under its key with a new version and wakes the keys its event concerns. */
  function PutExecution(s: State, e: Execution): State {
    s.(executions := s.executions[e.meta.key := e.(meta := e.meta.(version := s.log.version))],
       dirty := s.dirty + Wakes(e.meta), log := Bump(s.log))
  }

  predicate CanCreateLoose(s: State, key: Key, uid: Uid) {
    key.kind == ExecutionKind && key !in s.executions && uid !in s.log.home
  }

  function AfterCreateLoose(
      s: State, key: Key, uid: Uid, spec: ExecutionSpec, annotations: map<string, string>): State {
    var e := Object(Meta(key, uid, None, s.now, 1, s.log.version, annotations), spec, NO_EXECUTION_STATUS);
    PutExecution(s, e).(log := Bump(s.log).(home := s.log.home[uid := key]))
  }

  function AfterDeleteExecution(s: State, key: Key): State
    requires key in s.executions
  {
    s.(executions := s.executions - {key}, dirty := s.dirty + Wakes(s.executions[key].meta))
  }

  function PutJobs(s: State, jobs: map<Key, Job>, woken: set<Key>): State {
    s.(jobs := jobs, dirty := s.dirty + woken, log := s.log.(views := s.log.views + {jobs}))
  }

  predicate Grows(before: JobStatus, after: JobStatus) {
    before.failed <= after.failed && before.succeeded <= after.succeeded
  }

  /** The execution with this uid is stored. */
  ghost predicate Live(executions: map<Key, Execution>, uid: Uid) {
    exists k :: k in executions && executions[k].meta.uid == uid
  }

  predicate CanProgress(s: State, key: Key, status: JobStatus) {
    key in s.jobs && Grows(s.jobs[key].status, status)
  }

  ghost predicate CanCollect(s: State, key: Key) {
    && key in s.jobs
    && (s.jobs[key].meta.controller.Some? ==> !Live(s.executions, s.jobs[key].meta.controller.value.uid))
  }

  // ---------- work queue ----------

  predicate CanPop(s: State, key: Key) {
    key in s.dirty && key !in s.flights
  }

  predicate CanFail(s: State, key: Key) {
    key in s.flights && !s.flights[key].Ended?
  }

  predicate CanFinish(s: State, key: Key) {
    key in s.flights && s.flights[key].Ended?
  }

  function AfterRestart(s: State): State {
    s.(flights := map[], dirty := s.owners.Keys + s.executions.Keys)
  }

  function SetFlight(s: State, key: Key, f: Flight): State {
    s.(flights := s.flights[key := f])
  }

  function AfterFinish(s: State, key: Key): State
    requires key in s.flights && s.flights[key].Ended?
  {
    s.(flights := s.flights - {key},
       dirty := if s.flights[key].outcome in {RequeueNow, Error} then s.dirty + {key} else s.dirty)
  }

  // ---------- owner reconcile ----------

  predicate CanGetOwner(s: State, key: Key) {
    IsOwnerKind(key.kind) && key in s.flights && s.flights[key].Popped?
  }

  function AfterGetOwner(s: State, key: Key): State {
    SetFlight(s, key, if key in s.owners then OwnerGot(s.owners[key]) else Ended(Done))
  }

  ghost predicate CanListExecutions(s: State, key: Key, items: seq<Execution>) {
    && key in s.flights && s.flights[key].OwnerGot?
    && IsListing(s.executions, s.flights[key].owner.meta.key.ns, items)
  }

  function AfterListExecutions(s: State, key: Key, items: seq<Execution>): State
    requires key in s.flights && s.flights[key].OwnerGot?
  {
    var o := s.flights[key].owner;
    SetFlight(s, key, OwnerListed(o, Select(items, o.meta.uid)))
  }

  predicate CallsForRun(s: State, key: Key) {
    key in s.flights && s.flights[key].OwnerListed? && Decide(s.flights[key].owner, s.flights[key].last).CreateRun?
  }

  ghost predicate CanCreateExecution(s: State, key: Key, uid: Uid, name: string) {
    && CallsForRun(s, key) && uid !in s.log.home
    && !Used(s.log.home, Key(ExecutionKind, s.flights[key].owner.meta.key.ns, name))
    && (forall k :: k in s.executions && ControlledBy(s.executions[k].meta, s.flights[key].owner.meta.uid) ==>
          s.executions[k].meta.created < s.now)
  }

  function AfterCreateExecution(s: State, key: Key, uid: Uid, name: string): State
    requires key in s.flights && s.flights[key].OwnerListed?
  {
    var e := NewExecution(s.flights[key].owner, uid, name, s.now, s.log.version);
    SetFlight(PutExecution(s, e), key, Ended(Done)).(log := Bump(s.log).(home := s.log.home[uid := e.meta.key]))
  }

  /** The status update carries the version read; it applies only when nothing has written since. */
  predicate OwnerCurrent(s: State, o: Owner) {
    o.meta.key in s.owners && s.owners[o.meta.key].meta.version == o.meta.version
  }

  predicate CanUpdateOwner(s: State, key: Key) {
    key in s.flights && s.flights[key].OwnerListed? && Decide(s.flights[key].owner, s.flights[key].last).Mirror?
  }

  predicate CanRest(s: State, key: Key) {
    key in s.flights && s.flights[key].OwnerListed? && Decide(s.flights[key].owner, s.flights[key].last).Rest?
  }

  /** A conflict is swallowed; an owner that has gone is an error. */
  function AfterUpdateOwner(s: State, key: Key): State
    requires key in s.flights && s.flights[key].OwnerListed?
    requires Decide(s.flights[key].owner, s.flights[key].last).Mirror?
  {
    var o := s.flights[key].owner;
    var status := Decide(o, s.flights[key].last).status;
    if key !in s.owners then SetFlight(s, key, Ended(Error))
    else if !OwnerCurrent(s, o) then SetFlight(s, key, Ended(Done))
    else SetFlight(PutOwner(s, o.(status := status)), key, Ended(Done))
  }

  // ---------- execution reconcile ----------

  predicate CanGetExecution(s: State, key: Key) {
    key.kind == ExecutionKind && key in s.flights && s.flights[key].Popped?
  }

  function AfterGetExecution(s: State, key: Key): State {
    SetFlight(s, key, if key in s.executions then ExecGot(s.executions[key]) else Ended(Done))
  }

  ghost predicate CanListJobs(s: State, key: Key, view: map<Key, Job>, items: seq<Job>) {
    && key in s.flights && s.flights[key].ExecGot?
    && view in s.log.views && IsListing(view, s.flights[key].exec.meta.key.ns, items)
  }

  function AfterListJobs(s: State, key: Key, items: seq<Job>): State
    requires key in s.flights && s.flights[key].ExecGot?
  {
    var x := s.flights[key].exec;
    var owned := Sort(Owned(items, x.meta.uid));
    SetFlight(s, key, if owned == [] then ExecJobless(x) else ExecJob(x, owned[0], owned[1..]))
  }

  predicate CanReadModule(s: State, key: Key) {
    key in s.flights && s.flights[key].ExecJobless? && ModuleKeyOf(s.flights[key].exec.spec) in s.owners
  }

  function AfterReadModule(s: State, key: Key): State
    requires key in s.flights && s.flights[key].ExecJobless?
    requires ModuleKeyOf(s.flights[key].exec.spec) in s.owners
  {
    var x := s.flights[key].exec;
    SetFlight(s, key, ExecModule(x, s.owners[ModuleKeyOf(x.spec)]))
  }

  ghost predicate CanCreateJob(s: State, key: Key, uid: Uid, name: string) {
    && key in s.flights && s.flights[key].ExecModule? && s.flights[key].mod.spec.ModuleSpec?
    && uid !in s.log.home
    && !Used(s.log.home, Key(JobKind, s.flights[key].exec.meta.key.ns, name))
    && (s.flights[key].exec.meta.uid in s.log.newest ==> s.log.newest[s.flights[key].exec.meta.uid].created < s.now)
  }

  function AfterCreateJob(s: State, key: Key, uid: Uid, name: string, defaultImage: string): State
    requires key in s.flights && s.flights[key].ExecModule? && s.flights[key].mod.spec.ModuleSpec?
  {
    var x := s.flights[key].exec;
    var j := NewJob(x, s.flights[key].mod, defaultImage, uid, name, s.now);
    var jobs := s.jobs[j.meta.key := j];
    SetFlight(PutJobs(s, jobs, Wakes(j.meta)), key, Ended(RequeueNow)).(
      log := s.log.(home := s.log.home[uid := j.meta.key], made := s.log.made[j.meta.key := j.meta],
                    newest := s.log.newest[x.meta.uid := j.meta], views := s.log.views + {jobs}))
  }

  predicate CanPrune(s: State, key: Key) {
    key in s.flights && s.flights[key].ExecJob? && s.flights[key].stale != []
  }

  /** One turn of the prune loop: delete the head by name, or log the failure and go on. */
  function AfterPruneJob(s: State, key: Key, deleted: bool): State
    requires key in s.flights && s.flights[key].ExecJob? && s.flights[key].stale != []
  {
    var f := s.flights[key];
    var j := f.stale[0];
    var next := SetFlight(s, key, f.(stale := f.stale[1..]));
    if deleted && j.meta.key in s.jobs then PutJobs(next, s.jobs - {j.meta.key}, Wakes(j.meta)) else next
  }

  predicate CanUpdateExecution(s: State, key: Key) {
    key in s.flights && s.flights[key].ExecJob? && s.flights[key].stale == []
  }

  predicate ExecCurrent(s: State, x: Execution) {
    x.meta.key in s.executions && s.executions[x.meta.key].meta.version == x.meta.version
  }

  function ExecOutcome(phase: Phase): Outcome {
    if phase == Running || phase == Pending then RequeueLater else Done
  }

  function AfterUpdateExecution(s: State, key: Key): State
    requires key in s.flights && s.flights[key].ExecJob?
  {
    var x, latest := s.flights[key].exec, s.flights[key].latest;
    var status := NextStatus(x.status, latest);
    if status == x.status then SetFlight(s, key, Ended(ExecOutcome(status.phase)))
    else if !ExecCurrent(s, x) then SetFlight(s, key, Ended(Error))
    else SetFlight(PutExecution(s, x.(status := status)), key, Ended(ExecOutcome(status.phase)))
  }

  // ---------- the step relation ----------

  /**
   * When an action may happen. Hypotheses about the environment are the guards here: uids are never
   * reused, generated names are new, a child is created strictly later than its siblings, counters
   * do not decrease, and only the Jobs of executions that are gone are collected.
   */
  ghost predicate Enabled(s: State, a: Action) {
    match a
    case CreateOwner(key, uid, spec) => CanCreateOwner(s, key, uid, spec)
    case EditSpec(key, spec) => CanEditSpec(s, key, spec)
    case TouchOwner(key) => key in s.owners
    case DeleteOwner(key) => key in s.owners
    case CreateLoose(key, uid, _, _) => CanCreateLoose(s, key, uid)
    case TouchExecution(key) => key in s.executions
    case DeleteExecution(key) => key in s.executions
    case JobProgress(key, status) => CanProgress(s, key, status)
    case DeleteOrphan(key) => CanCollect(s, key)
    case Tick => true
    case Requeue(_) => true
    case Restart => true
    case Pop(key) => CanPop(s, key)
    case Fail(key) => CanFail(s, key)
    case Finish(key) => CanFinish(s, key)
    case GetOwner(key) => CanGetOwner(s, key)
    case ListExecutions(key, items) => CanListExecutions(s, key, items)
    case CreateExecution(key, uid, name) => CanCreateExecution(s, key, uid, name)
    case UpdateOwner(key) => CanUpdateOwner(s, key)
    case RestOwner(key) => CanRest(s, key)
    case GetExecution(key) => CanGetExecution(s, key)
    case ListJobs(key, view, items) => CanListJobs(s, key, view, items)
    case ReadModule(key) => CanReadModule(s, key)
    case CreateJob(key, uid, name, _) => CanCreateJob(s, key, uid, name)
    case PruneJob(key, _) => CanPrune(s, key)
    case UpdateExecution(key) => CanUpdateExecution(s, key)
  }

  ghost function Apply(s: State, a: Action): State
    requires Enabled(s, a)
  {
    match a
    case CreateOwner(key, uid, spec) => AfterCreateOwner(s, key, uid, spec)
    case EditSpec(key, spec) => AfterEditSpec(s, key, spec)
    case TouchOwner(key) => PutOwner(s, s.owners[key])
    case DeleteOwner(key) => AfterDeleteOwner(s, key)
    case CreateLoose(key, uid, spec, annotations) => AfterCreateLoose(s, key, uid, spec, annotations)
    case TouchExecution(key) => PutExecution(s, s.executions[key])
    case DeleteExecution(key) => AfterDeleteExecution(s, key)
    case JobProgress(key, status) =>
      PutJobs(s, s.jobs[key := s.jobs[key].(status := status)], Wakes(s.jobs[key].meta))
    case DeleteOrphan(key) => PutJobs(s, s.jobs - {key}, Wakes(s.jobs[key].meta))
    case Tick => s.(now := s.now + 1)
    case Requeue(key) => s.(dirty := s.dirty + {key})
    case Restart => AfterRestart(s)
    case Pop(key) => SetFlight(s, key, Popped).(dirty := s.dirty - {key})
    case Fail(key) => SetFlight(s, key, Ended(Error))
    case Finish(key) => AfterFinish(s, key)
    case GetOwner(key) => AfterGetOwner(s, key)
    case ListExecutions(key, items) => AfterListExecutions(s, key, items)
    case CreateExecution(key, uid, name) => AfterCreateExecution(s, key, uid, name)
    case UpdateOwner(key) => AfterUpdateOwner(s, key)
    case RestOwner(key) => SetFlight(s, key, Ended(Done))
    case GetExecution(key) => AfterGetExecution(s, key)
    case ListJobs(key, _, items) => AfterListJobs(s, key, items)
    case ReadModule(key) => AfterReadModule(s, key)
    case CreateJob(key, uid, name, defaultImage) => AfterCreateJob(s, key, uid, name, defaultImage)
    case PruneJob(key, deleted) => AfterPruneJob(s, key, deleted)
    case UpdateExecution(key) => AfterUpdateExecution(s, key)
  }

  /** Job lists come from the current store. */
  predicate FreshRead(s: State, a: Action) {
    a.ListJobs? ==> a.view == s.jobs
  }

  /** Every action of the run can happen; with freshReads, every Job list in it is fresh. */
  ghost predicate CanRun(s: State, run: seq<Action>, freshReads: bool)
    decreases |run|
  {
    run == [] ||
    (Enabled(s, run[0]) && (freshReads ==> FreshRead(s, run[0])) && CanRun(Apply(s, run[0]), run[1..], freshReads))
  }

  ghost function Final(s: State, run: seq<Action>, freshReads: bool): State
    requires CanRun(s, run, freshReads)
    decreases |run|
  {
    if run == [] then s else Final(Apply(s, run[0]), run[1..], freshReads)
  }

  ghost predicate Leads(s: State, t: State, freshReads: bool) {
    exists run :: CanRun(s, run, freshReads) && Final(s, run, freshReads) == t
  }

  ghost predicate Reachable(t: State, freshReads: bool) {
    exists s :: Initial(s) && Leads(s, t, freshReads)
  }
}
