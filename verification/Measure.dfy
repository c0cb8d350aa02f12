/**
 * A measure of the work left when users, Job counters and the garbage collector are quiet. Its first part
 * counts reconciles holding outdated copies: such a reconcile may still make one useless write.
 */
module Measure {
  import opened Basics
  import opened Objects
  import opened Decisions
  import opened Selection
  import opened Protocol
  import opened Invariants
  import opened BaseSteps
  import opened BaseRuns
  import opened FreshSteps
  import opened Pruning

  type Flights = map<Key, Flight>
  type Newest = map<Uid, Meta>

  // ---------- the parts ----------

  ghost predicate SameOwner(owners: Owners, k: Key, o: Owner) {
    k in owners && owners[k].meta.uid == o.meta.uid && owners[k].meta.generation == o.meta.generation
  }

  /** The reconcile holds a copy of something that has since gone or changed. */
  ghost predicate Outdated(owners: Owners, executions: Executions, newest: Newest, jobs: Jobs, k: Key, f: Flight) {
    match f
    case OwnerGot(o) => !SameOwner(owners, k, o)
    case OwnerListed(o, _) => !SameOwner(owners, k, o)
    case ExecGot(x) => !StoredAs(executions, k, x.meta.uid)
    case ExecJobless(x) => !StoredAs(executions, k, x.meta.uid) || !Jobless(jobs, x.meta.uid)
    case ExecModule(x, _) => !StoredAs(executions, k, x.meta.uid) || !Jobless(jobs, x.meta.uid)
    case ExecJob(x, latest, _) =>
      !StoredAs(executions, k, x.meta.uid) || !HasJob(newest, jobs, x.meta.uid)
          || latest != CurrentJob(newest, jobs, x.meta.uid)
    case _ => false
  }

  ghost function OutdatedKeys(owners: Owners, executions: Executions, newest: Newest, jobs: Jobs,
      flights: Flights): set<Key> {
    set k | k in flights && Outdated(owners, executions, newest, jobs, k, flights[k])
  }

  ghost predicate StampedNow(executions: Executions, o: Owner) {
    exists l :: l in executions && ControlledBy(executions[l].meta, o.meta.uid)
        && Stamp(executions[l]) == o.meta.generation
  }

  /** Owners without an execution for their current generation. */
  ghost function Unmade(owners: Owners, executions: Executions): set<Key> {
    set k | k in owners && !StampedNow(executions, owners[k])
  }

  ghost function WithoutJob(executions: Executions, jobs: Jobs): set<Key> {
    set k | k in executions && Jobless(jobs, executions[k].meta.uid)
  }

  ghost predicate IsTheNewest(newest: Newest, m: Meta) {
    m.controller.Some? && m.controller.value.uid in newest && newest[m.controller.value.uid] == m
  }

  /** Jobs that are not the newest made for their execution. */
  ghost function Surplus(newest: Newest, jobs: Jobs): set<Key> {
    set k | k in jobs && !IsTheNewest(newest, jobs[k].meta)
  }

  ghost function OutOfSync(newest: Newest, executions: Executions, jobs: Jobs): set<Key> {
    set k | k in executions && !InSync(newest, jobs, executions[k])
  }

  ghost predicate OldList(executions: Executions, f: Flight) {
    f.OwnerListed? && !IsNewest(executions, f.owner.meta.uid, f.last)
  }

  /** Owner reconciles whose selected execution is no longer what the store holds as newest. */
  ghost function OldLists(executions: Executions, flights: Flights): set<Key> {
    set k | k in flights && OldList(executions, flights[k])
  }

  ghost predicate Mirrors(executions: Executions, o: Owner) {
    exists e: Execution :: IsNewest(executions, o.meta.uid, Some(e))
                && o.status.lastExecution == e.meta.key.name && o.status.phase == e.status.phase
  }

  /** Owners whose status does not show their newest execution. */
  ghost function Unmirrored(owners: Owners, executions: Executions): set<Key> {
    set k | k in owners && !Mirrors(executions, owners[k])
  }

  // ---------- the measure ----------

  datatype Rank = Rank(
    outdated: set<Key>,
    unmade: set<Key>,
    jobless: set<Key>,
    surplus: set<Key>,
    unsynced: set<Key>,
    oldLists: set<Key>,
    unmirrored: set<Key>)

  ghost function RankOf(s: State): Rank {
    Rank(OutdatedKeys(s.owners, s.executions, s.log.newest, s.jobs, s.flights),
         Unmade(s.owners, s.executions),
         WithoutJob(s.executions, s.jobs),
         Surplus(s.log.newest, s.jobs),
         OutOfSync(s.log.newest, s.executions, s.jobs),
         OldLists(s.executions, s.flights),
         Unmirrored(s.owners, s.executions))
  }

  ghost predicate Within(a: Rank, b: Rank) {
    && a.outdated <= b.outdated && a.unmade <= b.unmade && a.jobless <= b.jobless && a.surplus <= b.surplus
    && a.unsynced <= b.unsynced && a.oldLists <= b.oldLists && a.unmirrored <= b.unmirrored
  }

  /** Lexicographically smaller. */
  ghost predicate Below(a: Rank, b: Rank) {
    || a.outdated < b.outdated
    || (a.outdated <= b.outdated &&
        (|| a.unmade < b.unmade
         || (a.unmade <= b.unmade &&
             (|| a.jobless < b.jobless
              || (a.jobless <= b.jobless &&
                  (|| a.surplus < b.surplus
                   || (a.surplus <= b.surplus &&
                       (|| a.unsynced < b.unsynced
                        || (a.unsynced <= b.unsynced &&
                            (|| a.oldLists < b.oldLists
                             || (a.oldLists <= b.oldLists && a.unmirrored < b.unmirrored)))))))))))
  }

  // ---------- steps that write nothing ----------

  /** The store is the same, and only the flight at key may have changed. */
  ghost predicate OnlyFlight(s: State, t: State, key: Key) {
    && t.owners == s.owners && t.executions == s.executions && t.jobs == s.jobs && t.log.newest == s.log.newest
    && forall k :: k in t.flights && k != key ==> k in s.flights && t.flights[k] == s.flights[k]
  }

  ghost predicate OutdatedAt(s: State, key: Key) {
    key in s.flights && Outdated(s.owners, s.executions, s.log.newest, s.jobs, key, s.flights[key])
  }

  ghost predicate OldListAt(s: State, key: Key) {
    key in s.flights && OldList(s.executions, s.flights[key])
  }

  lemma MoveWithin(s: State, t: State, key: Key)
    requires OnlyFlight(s, t, key)
    requires OutdatedAt(t, key) ==> OutdatedAt(s, key)
    requires OldListAt(t, key) ==> OldListAt(s, key)
    ensures Within(RankOf(t), RankOf(s))
  {
  }

  /** A flight that holds no copies. */
  predicate Bare(f: Flight) {
    f.Popped? || f.Ended?
  }

  lemma BareMove(s: State, t: State, key: Key)
    requires OnlyFlight(s, t, key) && (key in t.flights ==> Bare(t.flights[key]))
    ensures Within(RankOf(t), RankOf(s))
  {
    MoveWithin(s, t, key);
  }

  lemma GetOwnerRank(s: State, key: Key)
    requires CanGetOwner(s, key)
    ensures Within(RankOf(AfterGetOwner(s, key)), RankOf(s))
  {
    MoveWithin(s, AfterGetOwner(s, key), key);
  }

  lemma ListExecutionsRank(s: State, key: Key, items: seq<Execution>)
    requires Front(s) && CanListExecutions(s, key, items)
    ensures Within(RankOf(AfterListExecutions(s, key, items)), RankOf(s))
  {
    ListFindsNewest(s, key, items);
    MoveWithin(s, AfterListExecutions(s, key, items), key);
  }

  lemma GetExecutionRank(s: State, key: Key)
    requires CanGetExecution(s, key)
    ensures Within(RankOf(AfterGetExecution(s, key)), RankOf(s))
  {
    MoveWithin(s, AfterGetExecution(s, key), key);
  }

  lemma ReadModuleRank(s: State, key: Key)
    requires CanReadModule(s, key)
    ensures Within(RankOf(AfterReadModule(s, key)), RankOf(s))
  {
    MoveWithin(s, AfterReadModule(s, key), key);
  }

  /** The newest stored Job of a live execution is the newest ever made for it. */
  lemma NewestStoredIsCurrent(log: Log, executions: Executions, jobs: Jobs, key: Key, uid: Uid, latest: Job)
    requires JobsOk(log.made, log.specs, jobs) && MadeOk(log.home, log.made, log.newest)
    requires NewestOk(log.home, log.made, log.newest)
    requires NewestKept(log.newest, executions, jobs) && StoredAs(executions, key, uid)
    requires IsNewest(jobs, uid, Some(latest))
    ensures HasJob(log.newest, jobs, uid) && latest == CurrentJob(log.newest, jobs, uid)
  {
    assert JobOk(log.made, log.specs, latest.meta.key, latest);
    assert MadeJobOk(log.home, log.newest, latest.meta.key, latest.meta);
    assert HasJob(log.newest, jobs, executions[key].meta.uid);
    assert ControlledBy(jobs[log.newest[uid].key].meta, uid);
  }

  lemma JoblessList(jobs: Jobs, ns: string, uid: Uid, items: seq<Job>)
    requires IsListing(jobs, ns, items) && Sort(Owned(items, uid)) == []
    requires forall k :: k in jobs && ControlledBy(jobs[k].meta, uid) ==> k.ns == ns
    ensures Jobless(jobs, uid)
  {
    SortStable(Owned(items, uid));
    OwnedMembers(items, uid);
    assert Owned(items, uid) == [];
    assert forall y :: y in items ==> !ControlledBy(y.meta, uid);
  }

  lemma ListedJobs(log: Log, jobs: Jobs, key: Key, uid: Uid, items: seq<Job>)
    requires JobsOk(log.made, log.specs, jobs) && MadeOk(log.home, log.made, log.newest) && ViewOk(log.made, jobs)
    requires Home(log.home, uid, key) && IsListing(jobs, key.ns, items)
    ensures var owned := Sort(Owned(items, uid));
            && (owned == [] ==> Jobless(jobs, uid))
            && (owned != [] ==> IsNewest(jobs, uid, Some(owned[0])))
  {
    var owned := Sort(Owned(items, uid));
    JobsAtHome(log, jobs, key, uid);
    if owned == [] {
      JoblessList(jobs, key.ns, uid, items);
    } else {
      FreshListIsAll(log, jobs, key, uid, items);
      NewestOfAll(jobs, uid, owned[0], owned[1..]);
    }
  }

  lemma ListJobsRank(s: State, key: Key, items: seq<Job>)
    requires Front(s) && BackAt(s) && CanListJobs(s, key, s.jobs, items)
    ensures Within(RankOf(AfterListJobs(s, key, items)), RankOf(s))
  {
    var x := s.flights[key].exec;
    var owned := Sort(Owned(items, x.meta.uid));
    assert FlightOk(s.log, s.owners, s.executions, key, s.flights[key]);
    assert ViewOk(s.log.made, s.jobs);
    ListedJobs(s.log, s.jobs, key, x.meta.uid, items);
    if owned != [] && StoredAs(s.executions, key, x.meta.uid) {
      NewestStoredIsCurrent(s.log, s.executions, s.jobs, key, x.meta.uid, owned[0]);
    }
    ListedMove(s, key, items, owned);
  }

  lemma ListedMove(s: State, key: Key, items: seq<Job>, owned: seq<Job>)
    requires key in s.flights && s.flights[key].ExecGot? && owned == Sort(Owned(items, s.flights[key].exec.meta.uid))
    requires owned == [] ==> Jobless(s.jobs, s.flights[key].exec.meta.uid)
    requires var uid := s.flights[key].exec.meta.uid;
             owned != [] && StoredAs(s.executions, key, uid) ==>
               HasJob(s.log.newest, s.jobs, uid) && owned[0] == CurrentJob(s.log.newest, s.jobs, uid)
    ensures Within(RankOf(AfterListJobs(s, key, items)), RankOf(s))
  {
    MoveWithin(s, AfterListJobs(s, key, items), key);
  }
}
