/** Every write of a reconciler makes the measure smaller. */
module WriteRanks {
  import opened Basics
  import opened Objects
  import opened Decisions
  import opened Protocol
  import opened Invariants
  import opened FrontSteps
  import opened BackSteps
  import opened BaseRuns
  import opened Pruning
  import opened Measure

  // ---------- the reconcile that writes ends ----------

  /** Every other flight is as before, and not newly outdated; the one at key holds no copies any more. */
  ghost predicate Ends(s: State, t: State, key: Key) {
    && key in s.flights && (key in t.flights ==> Bare(t.flights[key]))
    && forall k :: k in t.flights && k != key ==>
         k in s.flights && t.flights[k] == s.flights[k] && (OutdatedAt(t, k) ==> OutdatedAt(s, k))
  }

  lemma EndsShrinks(s: State, t: State, key: Key)
    requires Ends(s, t, key)
    ensures RankOf(t).outdated <= RankOf(s).outdated
    ensures OutdatedAt(s, key) ==> RankOf(t).outdated < RankOf(s).outdated
  {
    if OutdatedAt(s, key) {
      assert key in RankOf(s).outdated && key !in RankOf(t).outdated;
    }
  }

  // ---------- creating an execution ----------

  lemma CreatedExecution(s: State, key: Key, uid: Uid, name: string) returns (e: Execution)
    requires Front(s) && CanCreateExecution(s, key, uid, name)
    ensures var o := s.flights[key].owner;
            && e.meta.key !in s.executions && e.meta.uid == uid
            && ControlledBy(e.meta, o.meta.uid) && Stamp(e) == o.meta.generation
            && ChildrenUpTo(s.executions, o.meta.uid, o.meta.generation - 1)
            && var t := AfterCreateExecution(s, key, uid, name);
               && t.owners == s.owners && t.executions == s.executions[e.meta.key := e] && t.jobs == s.jobs
               && t.log.newest == s.log.newest && t.flights == s.flights[key := Ended(Done)]
  {
    var o := s.flights[key].owner;
    e := NewExecution(o, uid, name, s.now, s.log.version);
    NewExecutionMade(o, uid, name, s.now, s.log.version);
    assert FlightOk(s.log, s.owners, s.executions, key, s.flights[key]);
    var log := NewId(s.log, uid, e.meta.key);
    CreatedFitsStore(s, key, e, uid, name, log);
  }

  lemma MoreExecutionsEnds(s: State, t: State, key: Key, e: Execution)
    requires key in s.flights && e.meta.key !in s.executions
    requires t.owners == s.owners && t.executions == s.executions[e.meta.key := e] && t.jobs == s.jobs
    requires t.log.newest == s.log.newest && t.flights == s.flights[key := Ended(Done)]
    ensures Ends(s, t, key)
  {
  }

  lemma NowMade(owners: Owners, executions: Executions, key: Key, e: Execution)
    requires key in owners && e.meta.key !in executions
    requires ControlledBy(e.meta, owners[key].meta.uid) && Stamp(e) == owners[key].meta.generation
    requires ChildrenUpTo(executions, owners[key].meta.uid, owners[key].meta.generation - 1)
    ensures Unmade(owners, executions[e.meta.key := e]) < Unmade(owners, executions)
  {
    var more := executions[e.meta.key := e];
    forall k | k in owners && StampedNow(executions, owners[k]) ensures StampedNow(more, owners[k]) {
      var l :| l in executions && ControlledBy(executions[l].meta, owners[k].meta.uid)
          && Stamp(executions[l]) == owners[k].meta.generation;
      assert more[l] == executions[l];
    }
    assert more[e.meta.key] == e && StampedNow(more, owners[key]);
    assert key in Unmade(owners, executions);
  }

  lemma CreateExecutionRank(s: State, key: Key, uid: Uid, name: string)
    requires Front(s) && CanCreateExecution(s, key, uid, name)
    ensures Below(RankOf(AfterCreateExecution(s, key, uid, name)), RankOf(s))
  {
    var t := AfterCreateExecution(s, key, uid, name);
    var e := CreatedExecution(s, key, uid, name);
    MoreExecutionsEnds(s, t, key, e);
    EndsShrinks(s, t, key);
    if !OutdatedAt(s, key) {
      NowMade(s.owners, s.executions, key, e);
    }
  }

  // ---------- mirroring ----------

  /** What mirroring e changes. */
  ghost predicate OwnerMirrored(s: State, t: State, key: Key, e: Execution) {
    && key in s.owners && key in t.owners
    && !(s.owners[key].status.lastExecution == e.meta.key.name && s.owners[key].status.phase == e.status.phase)
    && t.executions == s.executions && t.jobs == s.jobs && t.log.newest == s.log.newest
    && t.flights == s.flights[key := Ended(Done)] && t.owners == s.owners[key := t.owners[key]]
    && t.owners[key].meta.uid == s.owners[key].meta.uid
    && t.owners[key].meta.generation == s.owners[key].meta.generation
    && t.owners[key].status.lastExecution == e.meta.key.name && t.owners[key].status.phase == e.status.phase
  }

  lemma MirroredOwner(s: State, key: Key)
    requires Front(s) && CanUpdateOwner(s, key) && OwnerCurrent(s, s.flights[key].owner)
    ensures key in s.owners && s.owners[key] == s.flights[key].owner && s.flights[key].last.Some?
    ensures OwnerMirrored(s, AfterUpdateOwner(s, key), key, s.flights[key].last.value)
  {
    OwnerHeld(s, key);
  }

  lemma UpdateOwnerRank(s: State, key: Key)
    requires Front(s) && CanUpdateOwner(s, key) && OwnerCurrent(s, s.flights[key].owner)
    ensures Below(RankOf(AfterUpdateOwner(s, key)), RankOf(s))
  {
    MirroredOwner(s, key);
    MirrorRank(s, AfterUpdateOwner(s, key), key, s.flights[key].last.value);
  }

  lemma MirrorRank(s: State, t: State, key: Key, e: Execution)
    requires key in s.flights && key in s.owners && s.flights[key] == OwnerListed(s.owners[key], Some(e))
    requires OwnerMirrored(s, t, key, e)
    ensures Below(RankOf(t), RankOf(s))
  {
    assert Ends(s, t, key);
    EndsShrinks(s, t, key);
    assert RankOf(t).unmade <= RankOf(s).unmade;
    assert RankOf(t).oldLists <= RankOf(s).oldLists;
    if OldListAt(s, key) {
      assert key in RankOf(s).oldLists && key !in RankOf(t).oldLists;
    } else {
      MirrorShrinks(s.owners, t.owners, s.executions, key, e);
    }
  }

  lemma MirrorShrinks(owners: Owners, after: Owners, executions: Executions, key: Key, e: Execution)
    requires key in owners && IsNewest(executions, owners[key].meta.uid, Some(e))
    requires !(owners[key].status.lastExecution == e.meta.key.name && owners[key].status.phase == e.status.phase)
    requires forall k :: k in after <==> k in owners
    requires forall k :: k in owners && k != key ==> after[k] == owners[k]
    requires after[key].meta.uid == owners[key].meta.uid
    requires after[key].status.lastExecution == e.meta.key.name && after[key].status.phase == e.status.phase
    ensures Unmirrored(after, executions) < Unmirrored(owners, executions)
  {
    assert Mirrors(executions, after[key]);
    if Mirrors(executions, owners[key]) {
      var f: Execution :| IsNewest(executions, owners[key].meta.uid, Some(f))
                          && owners[key].status.lastExecution == f.meta.key.name
                          && owners[key].status.phase == f.status.phase;
      NewestUnique(executions, owners[key].meta.uid, Some(e), Some(f));
      assert false;
    }
    assert key in Unmirrored(owners, executions) && key !in Unmirrored(after, executions);
  }

  // ---------- creating a Job ----------

  lemma OtherFlightsOtherUids(s: State, key: Key, k: Key)
    requires Front(s) && key in s.flights && k in s.flights && k != key
    requires s.flights[key].ExecModule? || s.flights[key].ExecJob?
    requires s.flights[k].ExecGot? || s.flights[k].ExecJobless? || s.flights[k].ExecModule? || s.flights[k].ExecJob?
    ensures s.flights[k].exec.meta.uid != s.flights[key].exec.meta.uid
  {
    assert FlightOk(s.log, s.owners, s.executions, key, s.flights[key]);
    assert FlightOk(s.log, s.owners, s.executions, k, s.flights[k]);
  }

  /** What creating a Job changes. */
  ghost predicate JobAdded(s: State, t: State, key: Key, u: Uid, j: Job) {
    && t.owners == s.owners && t.executions == s.executions && t.jobs == s.jobs[j.meta.key := j]
    && t.log.newest == s.log.newest[u := j.meta] && t.flights == s.flights[key := Ended(RequeueNow)]
    && ControlledBy(j.meta, u) && (forall v :: v in s.log.newest ==> s.log.newest[v].key != j.meta.key)
  }

  lemma CreateJobAdds(s: State, key: Key, uid: Uid, name: string, defaultImage: string) returns (j: Job)
    requires Front(s) && BackAt(s) && CanCreateJob(s, key, uid, name)
    ensures JobAdded(s, AfterCreateJob(s, key, uid, name, defaultImage), key, s.flights[key].exec.meta.uid, j)
    ensures j.meta.key !in s.jobs
  {
    j := NewJob(s.flights[key].exec, s.flights[key].mod, defaultImage, uid, name, s.now);
    NewNameUnmade(s.log, j.meta.key);
    NotStored(s.log, s.jobs, j.meta.key);
  }

  lemma NotStored(log: Log, jobs: Jobs, key: Key)
    requires JobsOk(log.made, log.specs, jobs) && key !in log.made
    ensures key !in jobs
  {
    assert forall k :: k in jobs ==> JobOk(log.made, log.specs, k, jobs[k]);
  }

  lemma OutdatedBeforeJob(s: State, t: State, key: Key, u: Uid, j: Job, k: Key)
    requires JobAdded(s, t, key, u, j) && j.meta.key !in s.jobs && k != key && k in s.flights && OutdatedAt(t, k)
    requires var f := s.flights[k]; f.ExecGot? || f.ExecJobless? || f.ExecModule? || f.ExecJob? ==> f.exec.meta.uid != u
    ensures OutdatedAt(s, k)
  {
  }

  lemma JobAddedRank(s: State, t: State, key: Key, u: Uid, j: Job)
    requires key in s.flights && (s.flights[key].ExecModule?) && s.flights[key].exec.meta.uid == u
    requires JobAdded(s, t, key, u, j)
    requires j.meta.key !in s.jobs && Ends(s, t, key)
    ensures Below(RankOf(t), RankOf(s))
  {
    EndsShrinks(s, t, key);
    assert RankOf(t).unmade == RankOf(s).unmade;
    if !OutdatedAt(s, key) {
      assert t.jobs[j.meta.key] == j;
      assert key in RankOf(s).jobless && key !in RankOf(t).jobless;
      forall k | k in RankOf(t).jobless ensures k in RankOf(s).jobless {
        StillJobless(s.jobs, j, s.executions[k].meta.uid);
      }
    }
  }

  lemma StillJobless(jobs: Jobs, j: Job, uid: Uid)
    requires j.meta.key !in jobs && Jobless(jobs[j.meta.key := j], uid)
    ensures Jobless(jobs, uid)
  {
    var more := jobs[j.meta.key := j];
    forall k | k in jobs ensures !ControlledBy(jobs[k].meta, uid) {
      assert more[k] == jobs[k];
    }
  }

  lemma CreateJobRank(s: State, key: Key, uid: Uid, name: string, defaultImage: string)
    requires Front(s) && BackAt(s) && CanCreateJob(s, key, uid, name)
    ensures Below(RankOf(AfterCreateJob(s, key, uid, name, defaultImage)), RankOf(s))
  {
    var t := AfterCreateJob(s, key, uid, name, defaultImage);
    var u := s.flights[key].exec.meta.uid;
    var j := CreateJobAdds(s, key, uid, name, defaultImage);
    forall k | k in t.flights && k != key && OutdatedAt(t, k) ensures OutdatedAt(s, k) {
      var f := s.flights[k];
      if f.ExecGot? || f.ExecJobless? || f.ExecModule? || f.ExecJob? {
        OtherFlightsOtherUids(s, key, k);
      }
      OutdatedBeforeJob(s, t, key, u, j, k);
    }
    JobAddedRank(s, t, key, u, j);
  }

  // ---------- pruning ----------

  /** What deleting a Job changes. */
  ghost predicate JobGone(s: State, t: State, key: Key, name: Key) {
    && t.owners == s.owners && t.executions == s.executions && t.jobs == s.jobs - {name} && name in s.jobs
    && t.log.newest == s.log.newest && (forall v :: v in s.log.newest ==> s.log.newest[v].key != name)
    && key in s.flights && s.flights[key].ExecJob?
    && s.flights[key].stale != [] && t.flights == s.flights[key := s.flights[key].(stale := s.flights[key].stale[1..])]
  }

  lemma OutdatedBeforePrune(s: State, t: State, key: Key, name: Key, k: Key)
    requires JobGone(s, t, key, name) && k in s.flights && OutdatedAt(t, k)
    ensures OutdatedAt(s, k)
  {
  }

  lemma KeepsAJob(log: Log, executions: Executions, jobs: Jobs, name: Key, k: Key)
    requires JobsOk(log.made, log.specs, jobs) && MadeOk(log.home, log.made, log.newest)
    requires NewestOk(log.home, log.made, log.newest)
    requires NewestKept(log.newest, executions, jobs) && forall v :: v in log.newest ==> log.newest[v].key != name
    requires k in executions && !Jobless(jobs, executions[k].meta.uid)
    ensures !Jobless(jobs - {name}, executions[k].meta.uid)
  {
    var u := executions[k].meta.uid;
    MadeBefore(log, executions, jobs, k);
    assert ControlledBy((jobs - {name})[log.newest[u].key].meta, u);
  }

  lemma MadeBefore(log: Log, executions: Executions, jobs: Jobs, k: Key)
    requires JobsOk(log.made, log.specs, jobs) && MadeOk(log.home, log.made, log.newest)
    requires NewestKept(log.newest, executions, jobs) && k in executions && !Jobless(jobs, executions[k].meta.uid)
    requires NewestOk(log.home, log.made, log.newest)
    ensures var u := executions[k].meta.uid;
            HasJob(log.newest, jobs, u) && ControlledBy(log.newest[u], u)
  {
    var u := executions[k].meta.uid;
    var l :| l in jobs && ControlledBy(jobs[l].meta, u);
    assert JobOk(log.made, log.specs, l, jobs[l]) && MadeJobOk(log.home, log.newest, l, jobs[l].meta);
  }

  lemma JobGoneRank(s: State, t: State, key: Key, name: Key)
    requires JobGone(s, t, key, name) && s.jobs[name].meta.key == name
    requires forall k :: k in s.executions && Jobless(t.jobs, s.executions[k].meta.uid) ==>
             Jobless(s.jobs, s.executions[k].meta.uid)
    requires forall k :: k in s.flights && OutdatedAt(t, k) ==> OutdatedAt(s, k)
    ensures Below(RankOf(t), RankOf(s))
  {
    assert RankOf(t).outdated <= RankOf(s).outdated;
    assert RankOf(t).unmade == RankOf(s).unmade;
    assert RankOf(t).jobless <= RankOf(s).jobless;
    assert name in RankOf(s).surplus && name !in RankOf(t).surplus;
  }

  lemma PruneGone(s: State, key: Key)
    requires Front(s) && BackAt(s) && CanPrune(s, key) && s.flights[key].stale[0].meta.key in s.jobs
    ensures var name := s.flights[key].stale[0].meta.key;
            JobGone(s, AfterPruneJob(s, key, true), key, name) && s.jobs[name].meta.key == name
  {
    assert FlightOk(s.log, s.owners, s.executions, key, s.flights[key]);
    PruneKeeps(s.log, s.owners, s.executions, key, s.flights[key]);
    JobsKeyed(s.log, s.jobs);
  }

  lemma PruneJobRank(s: State, key: Key)
    requires Front(s) && BackAt(s) && CanPrune(s, key) && s.flights[key].stale[0].meta.key in s.jobs
    ensures Below(RankOf(AfterPruneJob(s, key, true)), RankOf(s))
  {
    var t := AfterPruneJob(s, key, true);
    var name := s.flights[key].stale[0].meta.key;
    PruneGone(s, key);
    forall k | k in s.executions && !Jobless(s.jobs, s.executions[k].meta.uid)
      ensures !Jobless(t.jobs, s.executions[k].meta.uid) {
      KeepsAJob(s.log, s.executions, s.jobs, name, k);
    }
    forall k | k in s.flights && OutdatedAt(t, k) ensures OutdatedAt(s, k) {
      OutdatedBeforePrune(s, t, key, name, k);
    }
    JobGoneRank(s, t, key, name);
  }

  lemma KeptJobRank(s: State, key: Key, deleted: bool)
    requires CanPrune(s, key) && !(deleted && s.flights[key].stale[0].meta.key in s.jobs)
    ensures Within(RankOf(AfterPruneJob(s, key, deleted)), RankOf(s))
  {
    MoveWithin(s, AfterPruneJob(s, key, deleted), key);
  }

  // ---------- updating an execution ----------

  /** What a status write to an execution changes. */
  ghost predicate StatusWritten(s: State, t: State, key: Key, status: ExecutionStatus) {
    && key in s.flights && s.flights[key].ExecJob? && key in s.executions
    && t.owners == s.owners && t.jobs == s.jobs && t.log.newest == s.log.newest
    && (exists outcome :: t.flights == s.flights[key := Ended(outcome)])
    && (forall k :: k in t.executions <==> k in s.executions)
    && (forall k :: k in s.executions && k != key ==> t.executions[k] == s.executions[k])
    && SameChild(s.executions[key], t.executions[key]) && t.executions[key].status == status
  }

  lemma UpdateExecutionWrites(s: State, key: Key)
    requires Front(s) && CanUpdateExecution(s, key) && ExecCurrent(s, s.flights[key].exec)
    requires NextStatus(s.flights[key].exec.status, s.flights[key].latest) != s.flights[key].exec.status
    ensures var x, latest := s.flights[key].exec, s.flights[key].latest;
            && StatusWritten(s, AfterUpdateExecution(s, key), key, NextStatus(x.status, latest))
            && s.executions[key] == x
  {
    ExecutionHeld(s, key);
    StatusApplied(s, key, s.flights[key].exec, s.flights[key].latest);
  }

  lemma StatusApplied(s: State, key: Key, x: Execution, latest: Job)
    requires key in s.flights && s.flights[key] == ExecJob(x, latest, []) && x.meta.key == key
    requires key in s.executions && s.executions[key] == x && NextStatus(x.status, latest) != x.status
    ensures StatusWritten(s, AfterUpdateExecution(s, key), key, NextStatus(x.status, latest))
  {
    var t := AfterUpdateExecution(s, key);
    assert t.flights == s.flights[key := Ended(ExecOutcome(NextStatus(x.status, latest).phase))];
  }

  lemma NextStatusSettles(shown: ExecutionStatus, j: Job)
    ensures NextStatus(NextStatus(shown, j), j) == NextStatus(shown, j)
  {
  }

  lemma StatusEnds(s: State, t: State, key: Key, status: ExecutionStatus)
    requires StatusWritten(s, t, key, status)
    ensures Ends(s, t, key)
  {
  }

  lemma StatusWrittenRank(s: State, t: State, key: Key, status: ExecutionStatus)
    requires StatusWritten(s, t, key, status)
    requires status == NextStatus(s.executions[key].status, s.flights[key].latest) != s.executions[key].status
    requires s.flights[key].exec == s.executions[key]
    requires forall k :: k in s.executions ==> Stamp(t.executions[k]) == Stamp(s.executions[k])
    ensures Below(RankOf(t), RankOf(s))
  {
    StatusEnds(s, t, key, status);
    EndsShrinks(s, t, key);
    StampsSame(s.owners, s.executions, t.executions);
    JoblessSame(s.executions, t.executions, s.jobs);
    if !OutdatedAt(s, key) {
      StatusSyncs(s, t, key, status);
    }
  }

  lemma StatusSyncs(s: State, t: State, key: Key, status: ExecutionStatus)
    requires StatusWritten(s, t, key, status) && !OutdatedAt(s, key)
    requires status == NextStatus(s.executions[key].status, s.flights[key].latest) != s.executions[key].status
    requires s.flights[key].exec == s.executions[key]
    ensures OutOfSync(s.log.newest, t.executions, s.jobs) < OutOfSync(s.log.newest, s.executions, s.jobs)
  {
    NextStatusSettles(s.executions[key].status, s.flights[key].latest);
    SyncShrinks(s.log.newest, s.executions, t.executions, s.jobs, key);
  }

  lemma JoblessSame(executions: Executions, after: Executions, jobs: Jobs)
    requires forall k :: k in after <==> k in executions
    requires forall k :: k in executions ==> after[k].meta.uid == executions[k].meta.uid
    ensures WithoutJob(after, jobs) == WithoutJob(executions, jobs)
  {
  }

  lemma SyncShrinks(newest: Newest, executions: Executions, after: Executions, jobs: Jobs, key: Key)
    requires forall k :: k in after <==> k in executions
    requires forall k :: k in executions && k != key ==> after[k] == executions[k]
    requires key in executions && !InSync(newest, jobs, executions[key]) && InSync(newest, jobs, after[key])
    ensures OutOfSync(newest, after, jobs) < OutOfSync(newest, executions, jobs)
  {
    assert key in OutOfSync(newest, executions, jobs) && key !in OutOfSync(newest, after, jobs);
  }

  lemma StampsSame(owners: Owners, executions: Executions, after: Executions)
    requires forall k :: k in executions <==> k in after
    requires forall k :: k in executions ==>
             after[k].meta.controller == executions[k].meta.controller && Stamp(after[k]) == Stamp(executions[k])
    ensures Unmade(owners, after) == Unmade(owners, executions)
  {
    forall k | k in owners ensures StampedNow(after, owners[k]) <==> StampedNow(executions, owners[k]) {
      assert forall l :: l in executions ==>
             ControlledBy(after[l].meta, owners[k].meta.uid) == ControlledBy(executions[l].meta, owners[k].meta.uid);
    }
  }

  lemma UpdateExecutionRank(s: State, key: Key)
    requires Front(s) && CanUpdateExecution(s, key) && ExecCurrent(s, s.flights[key].exec)
    requires NextStatus(s.flights[key].exec.status, s.flights[key].latest) != s.flights[key].exec.status
    ensures Below(RankOf(AfterUpdateExecution(s, key)), RankOf(s))
  {
    var t := AfterUpdateExecution(s, key);
    UpdateExecutionWrites(s, key);
    SameChildSame(s.log, s.executions[key], t.executions[key]);
    StatusWrittenRank(s, t, key, NextStatus(s.flights[key].exec.status, s.flights[key].latest));
  }
}
