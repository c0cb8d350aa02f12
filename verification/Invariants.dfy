/**
 * What every reachable state satisfies. Base holds even when Job lists are arbitrarily old; Strong
 * adds what needs fresh Job lists. Each predicate takes just the parts of the state it speaks of.
 */
module Invariants {
  import opened Basics
  import opened Objects
  import opened Decisions
  import opened Protocol

  type Owners = map<Key, Owner>
  type Executions = map<Key, Execution>
  type Jobs = map<Key, Job>

  // ---------- stored objects ----------

  ghost predicate Home(home: map<Uid, Key>, uid: Uid, key: Key) {
    uid in home && home[uid] == key
  }

  ghost predicate OwnerOk(log: Log, k: Key, o: Owner) {
    && o.meta.key == k && IsOwnerKind(k.kind) && Home(log.home, o.meta.uid, k)
    && o.meta.version < log.version
    && 0 <= o.status.observedGeneration <= o.meta.generation && 1 <= o.meta.generation
    && (k.kind == ModuleKind <==> o.spec.ModuleSpec?)
    && (o.meta.uid, o.meta.generation) in log.specs && log.specs[(o.meta.uid, o.meta.generation)] == o.spec
  }

  /**
   * A controlled execution lives in its owner's namespace and was made from the owner's spec at the
   * generation it is stamped with; one made for a module points at that module.
   */
  ghost predicate ChildOk(log: Log, e: Execution) {
    e.meta.controller.Some? ==>
      && IsOwnerKind(e.meta.controller.value.kind)
      && Home(log.home, e.meta.controller.value.uid, ControllerKey(e.meta))
      && WellStamped(e)
      && MadeFromSpec(log, e)
      && (e.meta.controller.value.kind == ModuleKind ==> ModuleKeyOf(e.spec) == ControllerKey(e.meta))
  }

  ghost predicate MadeFromSpec(log: Log, e: Execution)
    requires e.meta.controller.Some?
  {
    var p := (e.meta.controller.value.uid, Stamp(e));
    && p in log.specs && e.spec == RunSpec(ControllerKey(e.meta), log.specs[p])
    && e.meta.annotations ==
       StampedAnnotations(e.meta.controller.value.kind, log.specs[p].template.annotations, Stamp(e))
  }

  ghost predicate ExecOk(log: Log, k: Key, e: Execution) {
    && e.meta.key == k && k.kind == ExecutionKind && Home(log.home, e.meta.uid, k)
    && e.meta.version < log.version
    && ChildOk(log, e)
  }

  /** A Job is built from a module spec that was once stored. */
  ghost predicate FromModule(specs: map<(Uid, int), OwnerSpec>, j: JobSpec) {
    && (j.moduleUid, j.moduleGeneration) in specs
    && specs[(j.moduleUid, j.moduleGeneration)].ModuleSpec?
    && BuiltOf(specs[(j.moduleUid, j.moduleGeneration)], j)
  }

  /** The stored metadata of a Job is that of the Job made under its name. */
  ghost predicate Traced(made: map<Key, Meta>, k: Key, j: Meta) {
    k in made && made[k] == j
  }

  ghost predicate JobOk(made: map<Key, Meta>, specs: map<(Uid, int), OwnerSpec>, k: Key, j: Job) {
    Traced(made, k, j.meta) && FromModule(specs, j.spec)
  }

  ghost predicate OwnersOk(log: Log, owners: Owners) {
    forall k :: k in owners ==> OwnerOk(log, k, owners[k])
  }

  ghost predicate ExecutionsOk(log: Log, executions: Executions) {
    forall k :: k in executions ==> ExecOk(log, k, executions[k])
  }

  ghost predicate JobsOk(made: map<Key, Meta>, specs: map<(Uid, int), OwnerSpec>, jobs: Jobs) {
    forall k :: k in jobs ==> JobOk(made, specs, k, jobs[k])
  }

  predicate Siblings(a: Meta, b: Meta) {
    a.controller.Some? && b.controller.Some? && a.controller.value.uid == b.controller.value.uid
  }

  ghost predicate Ordered(a: Execution, b: Execution) {
    Siblings(a.meta, b.meta) ==>
      && a.meta.created != b.meta.created
      && (a.meta.created < b.meta.created ==> Stamp(a) < Stamp(b))
  }

  /** In creation order the stamps of an owner's executions strictly increase. */
  ghost predicate StampsOrdered(executions: Executions) {
    forall k, l :: k in executions && l in executions && k != l ==> Ordered(executions[k], executions[l])
  }

  /** Every execution controlled by uid was made for a generation of at most bound. */
  ghost predicate ChildrenUpTo(executions: Executions, uid: Uid, bound: int) {
    forall l :: l in executions && ControlledBy(executions[l].meta, uid) ==> Stamp(executions[l]) <= bound
  }

  ghost predicate StampsBounded(owners: Owners, executions: Executions) {
    forall k :: k in owners ==> ChildrenUpTo(executions, owners[k].meta.uid, owners[k].meta.generation)
  }

  ghost predicate NameOk(log: Log, executions: Executions, o: Owner) {
    o.status.lastExecution != "" ==>
      && Used(log.home, Key(ExecutionKind, o.meta.key.ns, o.status.lastExecution))
      && forall l ::
           l in executions && ControlledBy(executions[l].meta, o.meta.uid) && l.name == o.status.lastExecution ==>
             Stamp(executions[l]) <= o.status.observedGeneration
  }

  ghost predicate NamesOk(log: Log, owners: Owners, executions: Executions) {
    forall k :: k in owners ==> NameOk(log, executions, owners[k])
  }

  // ---------- Job history ----------

  /** j is the newest Job ever made for its execution, or older than it. */
  ghost predicate Recorded(newest: map<Uid, Meta>, j: Meta) {
    && j.controller.Some? && j.controller.value.uid in newest
    && (j.created < newest[j.controller.value.uid].created || j == newest[j.controller.value.uid])
  }

  ghost predicate MadeJobOk(home: map<Uid, Key>, newest: map<Uid, Meta>, k: Key, j: Meta) {
    && j.key == k && k.kind == JobKind && Home(home, j.uid, k) && Recorded(newest, j)
    && j.controller.value.kind == ExecutionKind && Home(home, j.controller.value.uid, ControllerKey(j))
  }

  /** No two Jobs of an execution were made at the same time. */
  ghost predicate MadeOk(home: map<Uid, Key>, made: map<Key, Meta>, newest: map<Uid, Meta>) {
    && (forall k :: k in made ==> MadeJobOk(home, newest, k, made[k]))
    && (forall k, l :: k in made && l in made && k != l && Siblings(made[k], made[l]) ==>
          made[k].created != made[l].created)
  }

  ghost predicate ViewOk(made: map<Key, Meta>, v: Jobs) {
    forall k :: k in v ==> Traced(made, k, v[k].meta)
  }

  ghost predicate ViewsOk(made: map<Key, Meta>, views: set<Jobs>) {
    forall v :: v in views ==> ViewOk(made, v)
  }

  ghost predicate NewestOk(home: map<Uid, Key>, made: map<Key, Meta>, newest: map<Uid, Meta>) {
    forall u :: u in newest ==>
      u in home && ControlledBy(newest[u], u) && Traced(made, newest[u].key, newest[u])
  }

  ghost predicate HasJob(newest: map<Uid, Meta>, jobs: Jobs, uid: Uid) {
    && uid in newest
    && newest[uid].key in jobs
    && jobs[newest[uid].key].meta == newest[uid]
  }

  /** A live execution that was ever given a Job still has the newest of them. */
  ghost predicate NewestKept(newest: map<Uid, Meta>, executions: Executions, jobs: Jobs) {
    forall k :: k in executions && executions[k].meta.uid in newest ==> HasJob(newest, jobs, executions[k].meta.uid)
  }

  /** Where a Job's spec came from, against the execution it belongs to. */
  ghost predicate BuiltFor(home: map<Uid, Key>, e: Execution, j: JobSpec) {
    && Home(home, j.moduleUid, ModuleKeyOf(e.spec))
    && (ControlledBy(e.meta, j.moduleUid) ==> Stamp(e) <= j.moduleGeneration)
    && BuiltTo(e.spec, j)
  }

  ghost predicate Built(home: map<Uid, Key>, executions: Executions, jobs: Jobs) {
    forall k, l :: k in executions && l in jobs && ControlledBy(jobs[l].meta, executions[k].meta.uid) ==>
      BuiltFor(home, executions[k], jobs[l].spec)
  }

  // ---------- reconciles in flight ----------

  /** The copy of an owner that a reconcile holds. */
  ghost predicate OwnerCopyOk(log: Log, owners: Owners, executions: Executions, k: Key, o: Owner) {
    && OwnerOk(log, k, o)
    && ChildrenUpTo(executions, o.meta.uid, o.meta.generation)
    && (k in owners && owners[k].meta.uid == o.meta.uid ==> o.meta.generation <= owners[k].meta.generation)
    && (k in owners && owners[k].meta.version == o.meta.version ==> owners[k] == o)
  }

  ghost predicate LastOk(log: Log, k: Key, o: Owner, e: Execution) {
    && ControlledBy(e.meta, o.meta.uid) && ControllerKey(e.meta) == k
    && e.meta.key.ns == k.ns && e.meta.key.kind == ExecutionKind && Used(log.home, e.meta.key)
  }

  predicate SameButVersion(a: Execution, b: Execution) {
    a.(meta := a.meta.(version := b.meta.version)) == b
  }

  /** The copy of an execution that a reconcile holds: only its version may be out of date. */
  ghost predicate ExecCopyOk(log: Log, executions: Executions, k: Key, x: Execution) {
    && ExecOk(log, k, x)
    && (k in executions && executions[k].meta.uid == x.meta.uid ==> SameButVersion(executions[k], x))
    && (k in executions && executions[k].meta.version == x.meta.version ==> executions[k] == x)
  }

  ghost predicate ModuleCopyOk(log: Log, x: Execution, m: Owner) {
    && m.spec.ModuleSpec? && Home(log.home, m.meta.uid, ModuleKeyOf(x.spec))
    && (m.meta.uid, m.meta.generation) in log.specs && log.specs[(m.meta.uid, m.meta.generation)] == m.spec
    && (ControlledBy(x.meta, m.meta.uid) ==> Stamp(x) <= m.meta.generation)
  }

  /** A Job still to be deleted is older than the one selected. */
  ghost predicate StaleOk(made: map<Key, Meta>, x: Execution, latest: Job, j: Job) {
    ControlledBy(j.meta, x.meta.uid) && Traced(made, j.meta.key, j.meta) && j.meta.created < latest.meta.created
  }

  ghost predicate SelectionOk(made: map<Key, Meta>, x: Execution, latest: Job, stale: seq<Job>) {
    && ControlledBy(latest.meta, x.meta.uid) && Traced(made, latest.meta.key, latest.meta)
    && forall i :: 0 <= i < |stale| ==> StaleOk(made, x, latest, stale[i])
  }

  ghost predicate FlightOk(log: Log, owners: Owners, executions: Executions, k: Key, f: Flight) {
    match f
    case Popped => true
    case OwnerGot(o) => OwnerCopyOk(log, owners, executions, k, o)
    case OwnerListed(o, last) =>
      && OwnerCopyOk(log, owners, executions, k, o)
      && (last.Some? ==> LastOk(log, k, o, last.value))
      && (Decide(o, last).CreateRun? ==> ChildrenUpTo(executions, o.meta.uid, o.meta.generation - 1))
    case ExecGot(x) => ExecCopyOk(log, executions, k, x)
    case ExecJobless(x) => ExecCopyOk(log, executions, k, x)
    case ExecModule(x, m) => ExecCopyOk(log, executions, k, x) && ModuleCopyOk(log, x, m)
    case ExecJob(x, latest, stale) => ExecCopyOk(log, executions, k, x) && SelectionOk(log.made, x, latest, stale)
    case Ended(_) => true
  }

  ghost predicate FlightsOk(log: Log, owners: Owners, executions: Executions, flights: map<Key, Flight>) {
    forall k :: k in flights ==> FlightOk(log, owners, executions, k, flights[k])
  }

  // ---------- wake-ups of owners ----------

  /** Reconciling this owner now would write nothing. */
  ghost predicate OwnerSettled(executions: Executions, o: Owner) {
    exists last :: IsNewest(executions, o.meta.uid, last) && Decide(o, last).Rest?
  }

  ghost predicate OwnerAwake(executions: Executions, o: Owner, f: Option<Flight>) {
    match f
    case None => OwnerSettled(executions, o)
    case Some(OwnerGot(copy)) => copy == o
    case Some(OwnerListed(copy, last)) => copy == o && IsNewest(executions, o.meta.uid, last)
    case Some(Ended(outcome)) => outcome.Error? || outcome.RequeueNow? || OwnerSettled(executions, o)
    case Some(_) => true
  }

  function FlightAt(flights: map<Key, Flight>, k: Key): Option<Flight> {
    if k in flights then Some(flights[k]) else None
  }

  ghost predicate OwnersAwake(owners: Owners, executions: Executions, dirty: set<Key>, flights: map<Key, Flight>) {
    forall k :: k in owners && k !in dirty ==> OwnerAwake(executions, owners[k], FlightAt(flights, k))
  }

  /** Specs are logged for known uids only, and for a stored owner none beyond its generation. */
  ghost predicate SpecsOk(log: Log, owners: Owners) {
    && (forall p :: p in log.specs ==> p.0 in log.home)
    && (forall k, p :: k in owners && p in log.specs && p.0 == owners[k].meta.uid ==> p.1 <= owners[k].meta.generation)
  }

  /** Owners, executions and the reconciles in flight. */
  ghost predicate Front(s: State) {
    && OwnersOk(s.log, s.owners) && ExecutionsOk(s.log, s.executions)
    && StampsOrdered(s.executions) && StampsBounded(s.owners, s.executions) && NamesOk(s.log, s.owners, s.executions)
    && FlightsOk(s.log, s.owners, s.executions, s.flights)
    && OwnersAwake(s.owners, s.executions, s.dirty, s.flights)
  }

  /** Jobs, their history, and what they owe their executions. */
  ghost predicate Back(log: Log, executions: Executions, jobs: Jobs) {
    && JobsOk(log.made, log.specs, jobs) && jobs in log.views && ViewsOk(log.made, log.views)
    && MadeOk(log.home, log.made, log.newest) && NewestOk(log.home, log.made, log.newest)
    && NewestKept(log.newest, executions, jobs) && Built(log.home, executions, jobs)
  }

  ghost predicate Base(s: State) {
    Front(s) && Back(s.log, s.executions, s.jobs) && SpecsOk(s.log, s.owners)
  }

  // ---------- with fresh Job lists ----------

  ghost predicate SingleJob(newest: map<Uid, Meta>, jobs: Jobs) {
    forall k :: k in jobs && jobs[k].meta.controller.Some? ==>
      && jobs[k].meta.controller.value.uid in newest
      && jobs[k].meta == newest[jobs[k].meta.controller.value.uid]
  }

  /** The newest Job of a live execution. */
  ghost function CurrentJob(newest: map<Uid, Meta>, jobs: Jobs, uid: Uid): Job
    requires HasJob(newest, jobs, uid)
  {
    jobs[newest[uid].key]
  }

  ghost predicate Backed(newest: map<Uid, Meta>, jobs: Jobs, e: Execution) {
    && (e.status.phase != NoPhase ==> e.meta.uid in newest)
    && (HasJob(newest, jobs, e.meta.uid) ==> Covers(e.status.phase, CurrentJob(newest, jobs, e.meta.uid).status))
  }

  ghost predicate PhasesBacked(newest: map<Uid, Meta>, executions: Executions, jobs: Jobs) {
    forall k :: k in executions ==> Backed(newest, jobs, executions[k])
  }

  ghost predicate ChildrenFinished(executions: Executions, uid: Uid) {
    forall l :: l in executions && ControlledBy(executions[l].meta, uid) ==> IsTerminal(executions[l].status.phase)
  }

  /** All of an owner's executions but the newest have finished. */
  ghost predicate NoOverlap(executions: Executions) {
    forall k, l :: (k in executions && l in executions && Siblings(executions[k].meta, executions[l].meta)
                    && executions[k].meta.created < executions[l].meta.created) ==>
      IsTerminal(executions[k].status.phase)
  }

  ghost predicate Jobless(jobs: Jobs, uid: Uid) {
    forall k :: k in jobs ==> !ControlledBy(jobs[k].meta, uid)
  }

  ghost predicate Tracks(newest: map<Uid, Meta>, jobs: Jobs, x: Execution, latest: Job) {
    && HasJob(newest, jobs, x.meta.uid) && latest.meta == newest[x.meta.uid]
    && Grows(latest.status, CurrentJob(newest, jobs, x.meta.uid).status) && Covers(x.status.phase, latest.status)
  }

  ghost predicate StoredAs(executions: Executions, k: Key, uid: Uid) {
    k in executions && executions[k].meta.uid == uid
  }

  ghost predicate FreshFlight(newest: map<Uid, Meta>, executions: Executions, jobs: Jobs, k: Key, f: Flight) {
    match f
    case OwnerListed(o, last) => Decide(o, last).CreateRun? ==> ChildrenFinished(executions, o.meta.uid)
    case ExecJobless(x) => Jobless(jobs, x.meta.uid)
    case ExecModule(x, _) => Jobless(jobs, x.meta.uid)
    case ExecJob(x, latest, stale) =>
      stale == [] && (StoredAs(executions, k, x.meta.uid) ==> Tracks(newest, jobs, x, latest))
    case _ => true
  }

  ghost predicate FreshFlights(newest: map<Uid, Meta>, executions: Executions, jobs: Jobs, flights: map<Key, Flight>) {
    forall k :: k in flights ==> FreshFlight(newest, executions, jobs, k, flights[k])
  }

  ghost predicate InSync(newest: map<Uid, Meta>, jobs: Jobs, e: Execution) {
    HasJob(newest, jobs, e.meta.uid) && NextStatus(e.status, CurrentJob(newest, jobs, e.meta.uid)) == e.status
  }

  ghost predicate ExecAwake(newest: map<Uid, Meta>, jobs: Jobs, e: Execution, f: Option<Flight>) {
    match f
    case None => InSync(newest, jobs, e)
    case Some(ExecGot(copy)) => copy == e
    case Some(ExecJobless(copy)) => copy == e
    case Some(ExecModule(copy, _)) => copy == e
    case Some(ExecJob(copy, latest, _)) =>
      copy == e && HasJob(newest, jobs, e.meta.uid) && latest == CurrentJob(newest, jobs, e.meta.uid)
    case Some(Ended(outcome)) => outcome.Error? || outcome.RequeueNow? || InSync(newest, jobs, e)
    case Some(_) => true
  }

  ghost predicate ExecutionsAwake(newest: map<Uid, Meta>, executions: Executions, jobs: Jobs, dirty: set<Key>,
      flights: map<Key, Flight>) {
    forall k :: k in executions && k !in dirty ==> ExecAwake(newest, jobs, executions[k], FlightAt(flights, k))
  }

  ghost predicate FreshOk(newest: map<Uid, Meta>, executions: Executions, jobs: Jobs, dirty: set<Key>,
      flights: map<Key, Flight>) {
    && SingleJob(newest, jobs) && PhasesBacked(newest, executions, jobs) && NoOverlap(executions)
    && FreshFlights(newest, executions, jobs, flights)
    && ExecutionsAwake(newest, executions, jobs, dirty, flights)
  }

  ghost predicate FreshAt(s: State) {
    FreshOk(s.log.newest, s.executions, s.jobs, s.dirty, s.flights)
  }

  ghost predicate Strong(s: State) {
    Base(s) && FreshAt(s)
  }
}
