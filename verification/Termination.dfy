/** With a quiet environment the three reconcilers together write only finitely often, however they interleave. */
module Termination {
  import opened Basics
  import opened Objects
  import opened Decisions
  import opened Protocol
  import opened Invariants
  import opened BaseRuns
  import opened Measure
  import opened WriteRanks

  /**
   * The steps of a quiet environment: everything but the writes of users, the Job controller and the garbage
   * collector. Crashes, failures, requeues and the clock go on.
   */
  predicate Quiet(a: Action) {
    !ByUser(a) && !a.JobProgress? && !a.DeleteOrphan?
  }

  function Store(s: State): (Owners, Executions, Jobs) {
    (s.owners, s.executions, s.jobs)
  }

  ghost predicate Writes(s: State, a: Action)
    requires Enabled(s, a)
  {
    Store(Apply(s, a)) != Store(s)
  }

  /** The step wrote and made the measure smaller, or wrote nothing and made no part of it larger. */
  ghost predicate Descends(s: State, t: State) {
    Below(RankOf(t), RankOf(s)) || (Store(t) == Store(s) && Within(RankOf(t), RankOf(s)))
  }

  lemma QueueDescends(s: State, a: Action)
    requires Enabled(s, a) && (a.Tick? || a.Requeue? || a.Restart? || a.Pop? || a.Fail? || a.Finish?)
    ensures Descends(s, Apply(s, a))
  {
    if a.Pop? || a.Fail? || a.Finish? {
      BareMove(s, Apply(s, a), a.key);
    } else {
      ClockDescends(s, a);
    }
  }

  lemma ClockDescends(s: State, a: Action)
    requires Enabled(s, a) && (a.Tick? || a.Requeue? || a.Restart?)
    ensures Descends(s, Apply(s, a))
  {
    var key := Key(JobKind, "", "");
    if a.Restart? {
      BareMove(s, Apply(s, a), key);
    } else {
      MoveWithin(s, Apply(s, a), key);
    }
  }

  lemma OwnerReconcileDescends(s: State, a: Action)
    requires Front(s) && Enabled(s, a) && ByOwnerReconcile(a)
    ensures Descends(s, Apply(s, a))
  {
    if a.CreateExecution? {
      CreateExecutionRank(s, a.key, a.uid, a.name);
    } else if a.UpdateOwner? {
      UpdateOwnerDescends(s, a.key);
    } else {
      OwnerReadDescends(s, a);
    }
  }

  lemma OwnerReadDescends(s: State, a: Action)
    requires Front(s) && Enabled(s, a) && (a.GetOwner? || a.ListExecutions? || a.RestOwner?)
    ensures Descends(s, Apply(s, a))
  {
    if a.ListExecutions? {
      ListExecutionsRank(s, a.key, a.executions);
    } else {
      OwnerGetDescends(s, a);
    }
  }

  lemma OwnerGetDescends(s: State, a: Action)
    requires Enabled(s, a) && (a.GetOwner? || a.RestOwner?)
    ensures Descends(s, Apply(s, a))
  {
    if a.GetOwner? {
      GetOwnerRank(s, a.key);
    } else {
      BareMove(s, SetFlight(s, a.key, Ended(Done)), a.key);
    }
  }

  lemma UpdateOwnerDescends(s: State, key: Key)
    requires Front(s) && CanUpdateOwner(s, key)
    ensures Descends(s, AfterUpdateOwner(s, key))
  {
    if OwnerCurrent(s, s.flights[key].owner) {
      UpdateOwnerRank(s, key);
    } else {
      UpdateOwnerFails(s, key);
    }
  }

  lemma UpdateOwnerFails(s: State, key: Key)
    requires CanUpdateOwner(s, key) && !OwnerCurrent(s, s.flights[key].owner)
    ensures Store(AfterUpdateOwner(s, key)) == Store(s) && Within(RankOf(AfterUpdateOwner(s, key)), RankOf(s))
  {
    BareMove(s, AfterUpdateOwner(s, key), key);
  }

  lemma ReadDescends(s: State, a: Action)
    requires Front(s) && BackAt(s) && Enabled(s, a) && FreshRead(s, a)
    requires a.GetExecution? || a.ListJobs? || a.ReadModule?
    ensures Descends(s, Apply(s, a))
  {
    if a.ListJobs? {
      ListJobsRank(s, a.key, a.jobs);
    } else {
      GetDescends(s, a);
    }
  }

  lemma GetDescends(s: State, a: Action)
    requires Enabled(s, a) && (a.GetExecution? || a.ReadModule?)
    ensures Descends(s, Apply(s, a))
  {
    if a.GetExecution? {
      GetExecutionRank(s, a.key);
    } else {
      ReadModuleRank(s, a.key);
    }
  }

  lemma PruneTurnDescends(s: State, key: Key, deleted: bool)
    requires Front(s) && BackAt(s) && CanPrune(s, key)
    ensures Descends(s, AfterPruneJob(s, key, deleted))
  {
    if deleted && s.flights[key].stale[0].meta.key in s.jobs {
      PruneJobRank(s, key);
    } else {
      KeptJobRank(s, key, deleted);
    }
  }

  lemma UpdateExecutionDescends(s: State, key: Key)
    requires Front(s) && CanUpdateExecution(s, key)
    ensures Descends(s, AfterUpdateExecution(s, key))
  {
    var x := s.flights[key].exec;
    if NextStatus(x.status, s.flights[key].latest) != x.status && ExecCurrent(s, x) {
      UpdateExecutionRank(s, key);
    } else {
      BareMove(s, AfterUpdateExecution(s, key), key);
    }
  }

  lemma WriteDescends(s: State, a: Action)
    requires Front(s) && BackAt(s) && Enabled(s, a) && (a.CreateJob? || a.PruneJob? || a.UpdateExecution?)
    ensures Descends(s, Apply(s, a))
  {
    if a.UpdateExecution? {
      UpdateExecutionDescends(s, a.key);
    } else if a.CreateJob? {
      CreateJobDescends(s, a);
    } else {
      PruneDescends(s, a);
    }
  }

  lemma PruneDescends(s: State, a: Action)
    requires Front(s) && BackAt(s) && Enabled(s, a) && a.PruneJob?
    ensures Descends(s, Apply(s, a))
  {
    PruneTurnDescends(s, a.key, a.deleted);
  }

  lemma CreateJobDescends(s: State, a: Action)
    requires Front(s) && BackAt(s) && Enabled(s, a) && a.CreateJob?
    ensures Descends(s, Apply(s, a))
  {
    CreateJobRank(s, a.key, a.uid, a.name, a.defaultImage);
  }

  lemma StepDescends(s: State, a: Action)
    requires Base(s) && Enabled(s, a) && Quiet(a) && FreshRead(s, a)
    ensures Descends(s, Apply(s, a))
  {
    if ByOwnerReconcile(a) {
      OwnerReconcileDescends(s, a);
    } else if a.GetExecution? || a.ListJobs? || a.ReadModule? {
      ReadDescends(s, a);
    } else if a.CreateJob? || a.PruneJob? || a.UpdateExecution? {
      WriteDescends(s, a);
    } else {
      QueueDescends(s, a);
    }
  }

  /**
   * Every write or prune by any of the three reconcilers makes the measure smaller, from any state that is
   * reachable with Job lists of any age; the steps that write nothing make no part of it larger.
   */
  lemma WritesDescend(s: State, a: Action, freshReads: bool)
    requires Reachable(s, freshReads) && Enabled(s, a) && Quiet(a) && FreshRead(s, a)
    ensures Writes(s, a) ==> Below(RankOf(Apply(s, a)), RankOf(s))
    ensures !Writes(s, a) ==> NotAbove(RankOf(Apply(s, a)), RankOf(s))
  {
    ReachableBase(s, freshReads);
    StepDescends(s, a);
  }

  // ---------- the measure without its history of copies ----------

  /** The five parts that speak of the store alone. */
  ghost predicate BelowInStore(a: Rank, b: Rank) {
    || a.unmade < b.unmade
    || (a.unmade <= b.unmade &&
        (|| a.jobless < b.jobless
         || (a.jobless <= b.jobless &&
             (|| a.surplus < b.surplus
              || (a.surplus <= b.surplus &&
                  (a.unsynced < b.unsynced || (a.unsynced <= b.unsynced && a.unmirrored < b.unmirrored)))))))
  }

  /** When no reconcile holds an outdated copy, those five are enough. */
  lemma StoreMeasureSuffices(s: State, a: Action, freshReads: bool)
    requires Reachable(s, freshReads) && Enabled(s, a) && Quiet(a) && FreshRead(s, a) && Writes(s, a)
    requires RankOf(s).outdated == {} && RankOf(s).oldLists == {}
    ensures BelowInStore(RankOf(Apply(s, a)), RankOf(s))
  {
    WritesDescend(s, a, freshReads);
  }

  /** Otherwise they are not: mirroring an outdated copy of the newest execution writes, and leaves all five alone. */
  lemma MirroringAnOldCopyGainsNothing(s: State, key: Key, e: Execution, freshReads: bool)
    requires Reachable(s, freshReads) && CanUpdateOwner(s, key) && OwnerCurrent(s, s.flights[key].owner)
    requires key in s.owners && IsNewest(s.executions, s.owners[key].meta.uid, Some(e))
    requires s.flights[key].last.Some? && s.flights[key].last.value.meta.key == e.meta.key
    requires s.flights[key].last.value.status.phase != e.status.phase && s.owners[key].status.phase != e.status.phase
    ensures Writes(s, UpdateOwner(key))
    ensures SameInStore(RankOf(AfterUpdateOwner(s, key)), RankOf(s))
  {
    ReachableBase(s, freshReads);
    OldMirror(s, key, e);
  }

  lemma OldMirror(s: State, key: Key, e: Execution)
    requires Front(s) && CanUpdateOwner(s, key) && OwnerCurrent(s, s.flights[key].owner)
    requires key in s.owners && IsNewest(s.executions, s.owners[key].meta.uid, Some(e))
    requires s.flights[key].last.Some?
    requires s.flights[key].last.value.status.phase != e.status.phase && s.owners[key].status.phase != e.status.phase
    ensures Writes(s, UpdateOwner(key))
    ensures SameInStore(RankOf(AfterUpdateOwner(s, key)), RankOf(s))
  {
    MirrorWrites(s, key);
    MirrorGainsNothing(s, key, e);
  }

  lemma MirrorWrites(s: State, key: Key)
    requires Front(s) && CanUpdateOwner(s, key) && OwnerCurrent(s, s.flights[key].owner)
    ensures Writes(s, UpdateOwner(key))
  {
    MirrorChanges(s, key);
  }

  /** The five parts are the same. */
  ghost predicate SameInStore(a: Rank, b: Rank) {
    && a.unmade == b.unmade && a.jobless == b.jobless && a.surplus == b.surplus && a.unsynced == b.unsynced
    && a.unmirrored == b.unmirrored
  }

  lemma MirrorChanges(s: State, key: Key)
    requires Front(s) && CanUpdateOwner(s, key) && OwnerCurrent(s, s.flights[key].owner)
    ensures Store(AfterUpdateOwner(s, key)) != Store(s)
  {
    OwnerHeld(s, key);
    assert OwnerOk(s.log, key, s.owners[key]);
    assert AfterUpdateOwner(s, key).owners[key].meta.version == s.log.version;
  }

  lemma MirrorGainsNothing(s: State, key: Key, e: Execution)
    requires Front(s) && CanUpdateOwner(s, key) && OwnerCurrent(s, s.flights[key].owner)
    requires key in s.owners && IsNewest(s.executions, s.owners[key].meta.uid, Some(e))
    requires s.flights[key].last.Some?
    requires s.flights[key].last.value.status.phase != e.status.phase && s.owners[key].status.phase != e.status.phase
    ensures SameInStore(RankOf(AfterUpdateOwner(s, key)), RankOf(s))
  {
    MirroredOwner(s, key);
    UselessMirror(s, AfterUpdateOwner(s, key), key, s.flights[key].last.value, e);
  }

  lemma UselessMirror(s: State, t: State, key: Key, held: Execution, e: Execution)
    requires OwnerMirrored(s, t, key, held) && IsNewest(s.executions, s.owners[key].meta.uid, Some(e))
    requires held.status.phase != e.status.phase && s.owners[key].status.phase != e.status.phase
    ensures SameInStore(RankOf(t), RankOf(s))
  {
    NotMirrored(s.executions, s.owners[key], e);
    NotMirrored(s.executions, t.owners[key], e);
    assert StampedNow(s.executions, t.owners[key]) <==> StampedNow(s.executions, s.owners[key]);
  }

  lemma NotMirrored(executions: Executions, o: Owner, e: Execution)
    requires IsNewest(executions, o.meta.uid, Some(e)) && o.status.phase != e.status.phase
    ensures !Mirrors(executions, o)
  {
    forall f: Execution | IsNewest(executions, o.meta.uid, Some(f)) ensures f == e {
      NewestUnique(executions, o.meta.uid, Some(f), Some(e));
    }
  }

  // ---------- infinite runs ----------

  ghost predicate NotAbove(a: Rank, b: Rank) {
    Below(a, b) || Within(a, b)
  }

  lemma NotAboveTransitive(a: Rank, b: Rank, c: Rank)
    requires NotAbove(a, b) && NotAbove(b, c)
    ensures NotAbove(a, c)
    ensures Below(a, b) || Below(b, c) ==> Below(a, c)
  {
  }

  /**
   * An endless run: any steps of a quiet environment and the reconcilers, in any order, each list of Jobs being
   * fresh. From older lists, creating and pruning could go on forever.
   */
  ghost predicate QuietRun(states: nat -> State, steps: nat -> Action) {
    forall n: nat {:trigger steps(n)} ::
      && Enabled(states(n), steps(n)) && Quiet(steps(n)) && FreshRead(states(n), steps(n))
      && states(n + 1) == Apply(states(n), steps(n))
  }

  lemma {:induction false} AllBase(states: nat -> State, steps: nat -> Action, n: nat)
    requires QuietRun(states, steps) && Base(states(0))
    ensures Base(states(n))
  {
    if n > 0 {
      AllBase(states, steps, n - 1);
      NextBase(states, steps, n - 1);
    }
  }

  lemma NextBase(states: nat -> State, steps: nat -> Action, n: nat)
    requires QuietRun(states, steps) && Base(states(n))
    ensures Base(states(n + 1))
  {
    StepBase(states(n), steps(n));
  }

  lemma RankNext(states: nat -> State, steps: nat -> Action, n: nat)
    requires QuietRun(states, steps) && Base(states(0))
    ensures NotAbove(RankOf(states(n + 1)), RankOf(states(n)))
  {
    AllBase(states, steps, n);
    StepDescends(states(n), steps(n));
  }

  ghost predicate FallsAt(ranks: nat -> Rank, n: nat) {
    NotAbove(ranks(n + 1), ranks(n))
  }

  lemma {:induction false} RanksFall(ranks: nat -> Rank, m: nat, n: nat)
    requires m <= n && forall i: nat :: FallsAt(ranks, i)
    ensures NotAbove(ranks(n), ranks(m))
    decreases n
  {
    if m < n {
      RanksFall(ranks, m, n - 1);
      assert FallsAt(ranks, n - 1);
      NotAboveTransitive(ranks(n), ranks(n - 1), ranks(m));
    }
  }

  lemma RankNeverRises(states: nat -> State, steps: nat -> Action, m: nat, n: nat)
    requires QuietRun(states, steps) && Base(states(0)) && m <= n
    ensures NotAbove(RankOf(states(n)), RankOf(states(m)))
  {
    var ranks := (i: nat) => RankOf(states(i));
    forall i: nat ensures FallsAt(ranks, i) {
      RankNext(states, steps, i);
    }
    RanksFall(ranks, m, n);
  }

  ghost predicate WritesAt(states: nat -> State, n: nat) {
    Store(states(n + 1)) != Store(states(n))
  }

  ghost predicate NoWritesFrom(states: nat -> State, m: nat) {
    forall n: nat :: n >= m ==> !WritesAt(states, n)
  }

  lemma BelowAfterWrite(states: nat -> State, steps: nat -> Action, m: nat, n: nat)
    requires QuietRun(states, steps) && Base(states(0)) && m <= n && WritesAt(states, n)
    ensures Below(RankOf(states(n + 1)), RankOf(states(m)))
  {
    RankNeverRises(states, steps, m, n);
    AllBase(states, steps, n);
    StepDescends(states(n), steps(n));
    NotAboveTransitive(RankOf(states(n + 1)), RankOf(states(n)), RankOf(states(m)));
  }

  lemma {:induction false} WritesStopFrom(states: nat -> State, steps: nat -> Action, m: nat, r: Rank)
    requires QuietRun(states, steps) && Base(states(0)) && r == RankOf(states(m))
    ensures exists last: nat :: NoWritesFrom(states, last)
    decreases r.outdated, r.unmade, r.jobless, r.surplus, r.unsynced, r.oldLists, r.unmirrored
  {
    if n: nat :| n >= m && WritesAt(states, n) {
      BelowAfterWrite(states, steps, m, n);
      WritesStopFrom(states, steps, n + 1, RankOf(states(n + 1)));
    } else {
      assert NoWritesFrom(states, m);
    }
  }

  ghost predicate SettledFrom(states: nat -> State, m: nat) {
    forall n: nat :: n >= m ==> Store(states(n)) == Store(states(m))
  }

  lemma {:induction false} SameStoreUntil(states: nat -> State, m: nat, n: nat)
    requires m <= n && NoWritesFrom(states, m)
    ensures Store(states(n)) == Store(states(m))
    decreases n
  {
    if m < n {
      SameStoreUntil(states, m, n - 1);
      assert !WritesAt(states, n - 1);
    }
  }

  /** In every endless run with a quiet environment and fresh Job lists the store changes only finitely often. */
  lemma WritesStop(states: nat -> State, steps: nat -> Action, freshReads: bool)
    requires Reachable(states(0), freshReads) && QuietRun(states, steps)
    ensures exists last: nat :: SettledFrom(states, last)
  {
    ReachableBase(states(0), freshReads);
    WritesStopFrom(states, steps, 0, RankOf(states(0)));
    var last: nat :| NoWritesFrom(states, last);
    forall n: nat | n >= last ensures Store(states(n)) == Store(states(last)) {
      SameStoreUntil(states, last, n);
    }
    assert SettledFrom(states, last);
  }
}
