/** When a write improves the five counts of the store: exactly, for each of the five writes. */
module ExactCounts {
  import opened Basics
  import opened Objects
  import opened Decisions
  import opened Protocol
  import opened Invariants
  import opened FrontSteps
  import opened BackSteps
  import opened BaseRuns
  import opened FreshSteps
  import opened Pruning
  import opened Measure
  import opened WriteRanks
  import opened Termination

  // ---------- creating an execution ----------

  lemma UnmadeSame(owners: Owners, executions: Executions, e: Execution)
    requires e.meta.key !in executions
    requires forall k :: k in owners && ControlledBy(e.meta, owners[k].meta.uid) ==>
             Stamp(e) != owners[k].meta.generation
    ensures Unmade(owners, executions[e.meta.key := e]) == Unmade(owners, executions)
  {
    var more := executions[e.meta.key := e];
    forall k | k in owners ensures StampedNow(more, owners[k]) <==> StampedNow(executions, owners[k]) {
      if StampedNow(executions, owners[k]) {
        var l :| l in executions && ControlledBy(executions[l].meta, owners[k].meta.uid)
                 && Stamp(executions[l]) == owners[k].meta.generation;
        assert more[l] == executions[l];
      }
    }
  }

  lemma OwnerUidsAtKey(s: State, key: Key)
    requires Front(s) && key in s.flights && s.flights[key].OwnerListed?
    ensures forall k :: k in s.owners && s.owners[k].meta.uid == s.flights[key].owner.meta.uid ==> k == key
  {
    FlightUids(s, key);
    assert forall k :: k in s.owners ==> OwnerOk(s.log, k, s.owners[k]);
  }

  lemma CreateExecutionCounts(s: State, key: Key, uid: Uid, name: string)
    requires Front(s) && BackAt(s) && CanCreateExecution(s, key, uid, name)
    ensures BelowInStore(RankOf(AfterCreateExecution(s, key, uid, name)), RankOf(s)) <==>
            SameOwner(s.owners, key, s.flights[key].owner)
  {
    var t := AfterCreateExecution(s, key, uid, name);
    var o := s.flights[key].owner;
    var e := CreatedExecution(s, key, uid, name);
    FreshUid(s.log, s.executions, s.jobs, uid);
    OwnerUidsAtKey(s, key);
    CreatedCounts(s, t, key, o, e);
  }

  lemma CreatedCounts(s: State, t: State, key: Key, o: Owner, e: Execution)
    requires e.meta.key !in s.executions && ControlledBy(e.meta, o.meta.uid) && Stamp(e) == o.meta.generation
    requires ChildrenUpTo(s.executions, o.meta.uid, o.meta.generation - 1) && Jobless(s.jobs, e.meta.uid)
    requires t.owners == s.owners && t.executions == s.executions[e.meta.key := e] && t.jobs == s.jobs
    requires forall k :: k in s.owners && s.owners[k].meta.uid == o.meta.uid ==> k == key
    ensures BelowInStore(RankOf(t), RankOf(s)) <==> SameOwner(s.owners, key, o)
  {
    if SameOwner(s.owners, key, o) {
      NowMade(s.owners, s.executions, key, e);
    } else {
      UnmadeSame(s.owners, s.executions, e);
      assert t.executions[e.meta.key] == e;
      assert e.meta.key in WithoutJob(t.executions, t.jobs) && e.meta.key !in WithoutJob(s.executions, s.jobs);
    }
  }

  // ---------- mirroring ----------

  /** The newest stored execution has the name and phase of the copy held. */
  ghost predicate HeldAsStored(executions: Executions, uid: Uid, held: Execution) {
    exists e: Execution :: IsNewest(executions, uid, Some(e))
                           && e.meta.key.name == held.meta.key.name && e.status.phase == held.status.phase
  }

  lemma UpdateOwnerCounts(s: State, key: Key)
    requires Front(s) && CanUpdateOwner(s, key) && OwnerCurrent(s, s.flights[key].owner)
    ensures s.flights[key].last.Some?
    ensures BelowInStore(RankOf(AfterUpdateOwner(s, key)), RankOf(s)) <==>
            HeldAsStored(s.executions, s.flights[key].owner.meta.uid, s.flights[key].last.value)
  {
    MirroredOwner(s, key);
    MirrorCounts(s, AfterUpdateOwner(s, key), key, s.flights[key].last.value);
  }

  lemma MirrorCounts(s: State, t: State, key: Key, held: Execution)
    requires OwnerMirrored(s, t, key, held)
    ensures BelowInStore(RankOf(t), RankOf(s)) <==> HeldAsStored(s.executions, s.owners[key].meta.uid, held)
  {
    var uid := s.owners[key].meta.uid;
    assert StampedNow(s.executions, t.owners[key]) <==> StampedNow(s.executions, s.owners[key]);
    assert RankOf(t).unmade == RankOf(s).unmade;
    assert Mirrors(s.executions, t.owners[key]) <==> HeldAsStored(s.executions, uid, held);
    if HeldAsStored(s.executions, uid, held) {
      var e: Execution :| IsNewest(s.executions, uid, Some(e))
                          && e.meta.key.name == held.meta.key.name && e.status.phase == held.status.phase;
      MirrorShrinks(s.owners, t.owners, s.executions, key, e);
    } else {
      assert key in RankOf(t).unmirrored;
      assert RankOf(s).unmirrored <= RankOf(t).unmirrored;
    }
  }

  // ---------- creating a Job ----------

  lemma UnstoredUid(s: State, key: Key)
    requires Front(s) && key in s.flights && s.flights[key].ExecModule?
    ensures forall k :: k in s.executions && s.executions[k].meta.uid == s.flights[key].exec.meta.uid ==> k == key
  {
    FlightUids(s, key);
    assert forall k :: k in s.executions ==> ExecOk(s.log, k, s.executions[k]);
  }

  lemma CreateJobCounts(s: State, key: Key, uid: Uid, name: string, defaultImage: string)
    requires Front(s) && BackAt(s) && CanCreateJob(s, key, uid, name)
    ensures var u := s.flights[key].exec.meta.uid;
            BelowInStore(RankOf(AfterCreateJob(s, key, uid, name, defaultImage)), RankOf(s)) <==>
            StoredAs(s.executions, key, u) && Jobless(s.jobs, u)
  {
    var u := s.flights[key].exec.meta.uid;
    var j := CreateJobAdds(s, key, uid, name, defaultImage);
    UnstoredUid(s, key);
    if StoredAs(s.executions, key, u) && !Jobless(s.jobs, u) {
      MadeBefore(s.log, s.executions, s.jobs, key);
    }
    JobsKeyed(s.log, s.jobs);
    AddedCounts(s, AfterCreateJob(s, key, uid, name, defaultImage), key, u, j);
  }

  lemma AddedCounts(s: State, t: State, key: Key, u: Uid, j: Job)
    requires JobAdded(s, t, key, u, j) && j.meta.key !in s.jobs && forall k :: k in s.jobs ==> s.jobs[k].meta.key == k
    requires forall k :: k in s.executions && s.executions[k].meta.uid == u ==> k == key
    requires StoredAs(s.executions, key, u) && !Jobless(s.jobs, u) ==>
               HasJob(s.log.newest, s.jobs, u) && ControlledBy(s.log.newest[u], u)
    ensures BelowInStore(RankOf(t), RankOf(s)) <==> StoredAs(s.executions, key, u) && Jobless(s.jobs, u)
  {
    assert RankOf(t).unmade == RankOf(s).unmade;
    forall k | k in s.executions && k != key
      ensures Jobless(t.jobs, s.executions[k].meta.uid) <==> Jobless(s.jobs, s.executions[k].meta.uid)
    {
      JoblessElsewhere(s.jobs, j, u, s.executions[k].meta.uid);
    }
    assert t.jobs[j.meta.key] == j;
    if StoredAs(s.executions, key, u) && Jobless(s.jobs, u) {
      assert key in RankOf(s).jobless && key !in RankOf(t).jobless;
    } else {
      assert RankOf(t).jobless == RankOf(s).jobless by { KeyKeepsJob(s, t, key, u, j); }
      SurplusGrows(s, t, key, u, j);
    }
  }

  lemma JoblessElsewhere(jobs: Jobs, j: Job, u: Uid, uid: Uid)
    requires j.meta.key !in jobs && ControlledBy(j.meta, u) && u != uid
    ensures Jobless(jobs[j.meta.key := j], uid) <==> Jobless(jobs, uid)
  {
    var more := jobs[j.meta.key := j];
    assert forall k :: k in jobs ==> more[k] == jobs[k];
  }

  lemma KeyKeepsJob(s: State, t: State, key: Key, u: Uid, j: Job)
    requires JobAdded(s, t, key, u, j) && j.meta.key !in s.jobs
    requires StoredAs(s.executions, key, u) ==> !Jobless(s.jobs, u)
    requires forall k :: k in s.executions && s.executions[k].meta.uid == u ==> k == key
    requires forall k :: k in s.executions && k != key ==>
               (Jobless(t.jobs, s.executions[k].meta.uid) <==> Jobless(s.jobs, s.executions[k].meta.uid))
    ensures WithoutJob(t.executions, t.jobs) == WithoutJob(s.executions, s.jobs)
  {
    if key in s.executions {
      if s.executions[key].meta.uid == u {
        assert t.jobs[j.meta.key] == j;
      } else {
        JoblessElsewhere(s.jobs, j, u, s.executions[key].meta.uid);
      }
    }
  }

  lemma SurplusGrows(s: State, t: State, key: Key, u: Uid, j: Job)
    requires JobAdded(s, t, key, u, j) && j.meta.key !in s.jobs && forall k :: k in s.jobs ==> s.jobs[k].meta.key == k
    requires forall k :: k in s.executions && s.executions[k].meta.uid == u ==> k == key
    requires StoredAs(s.executions, key, u) ==> HasJob(s.log.newest, s.jobs, u) && ControlledBy(s.log.newest[u], u)
    requires RankOf(t).unmade == RankOf(s).unmade && RankOf(t).jobless == RankOf(s).jobless
    ensures !BelowInStore(RankOf(t), RankOf(s))
  {
    assert forall k :: k in s.jobs ==> t.jobs[k] == s.jobs[k];
    assert RankOf(s).surplus <= RankOf(t).surplus;
    if StoredAs(s.executions, key, u) {
      var former := s.log.newest[u].key;
      assert former in RankOf(t).surplus && former !in RankOf(s).surplus;
    } else {
      forall k | k in s.executions
        ensures InSync(t.log.newest, t.jobs, s.executions[k]) <==> InSync(s.log.newest, s.jobs, s.executions[k]) {
        assert s.executions[k].meta.uid != u;
      }
      assert RankOf(t).unsynced == RankOf(s).unsynced;
      assert RankOf(t).unmirrored == RankOf(s).unmirrored;
    }
  }

  // ---------- pruning ----------

  lemma PruneJobCounts(s: State, key: Key)
    requires Front(s) && BackAt(s) && CanPrune(s, key) && s.flights[key].stale[0].meta.key in s.jobs
    ensures BelowInStore(RankOf(AfterPruneJob(s, key, true)), RankOf(s))
  {
    var t := AfterPruneJob(s, key, true);
    var name := s.flights[key].stale[0].meta.key;
    PruneGone(s, key);
    forall k | k in s.executions && !Jobless(s.jobs, s.executions[k].meta.uid)
      ensures !Jobless(t.jobs, s.executions[k].meta.uid)
    {
      KeepsAJob(s.log, s.executions, s.jobs, name, k);
    }
    GoneCounts(s, t, key, name);
  }

  lemma GoneCounts(s: State, t: State, key: Key, name: Key)
    requires JobGone(s, t, key, name) && s.jobs[name].meta.key == name
    requires forall k :: k in s.executions && !Jobless(s.jobs, s.executions[k].meta.uid) ==>
               !Jobless(t.jobs, s.executions[k].meta.uid)
    ensures BelowInStore(RankOf(t), RankOf(s))
  {
    assert RankOf(t).unmade == RankOf(s).unmade;
    assert RankOf(t).jobless <= RankOf(s).jobless;
    assert name in RankOf(s).surplus && name !in RankOf(t).surplus;
  }

  // ---------- updating an execution ----------

  /** With the new status, an owner that already shows it is in step with the execution. */
  ghost predicate OwnerGains(owners: Owners, executions: Executions, key: Key, phase: Phase)
    requires key in executions
  {
    && executions[key].status.phase != phase
    && exists k :: k in owners && IsNewest(executions, owners[k].meta.uid, Some(executions[key]))
                   && owners[k].status.lastExecution == key.name && owners[k].status.phase == phase
  }

  /**
   * The status brings the execution in step with its current Job; or it leaves it as much out of step as it
   * was, but is the one its owner already shows.
   */
  ghost predicate StatusHelps(s: State, key: Key, status: ExecutionStatus)
    requires key in s.executions
  {
    var e := s.executions[key];
    var before, after := InSync(s.log.newest, s.jobs, e), InSync(s.log.newest, s.jobs, e.(status := status));
    (!before && after) || (before == after && OwnerGains(s.owners, s.executions, key, status.phase))
  }

  lemma UpdateExecutionCounts(s: State, key: Key)
    requires Front(s) && CanUpdateExecution(s, key) && ExecCurrent(s, s.flights[key].exec)
    requires NextStatus(s.flights[key].exec.status, s.flights[key].latest) != s.flights[key].exec.status
    ensures key in s.executions
    ensures BelowInStore(RankOf(AfterUpdateExecution(s, key)), RankOf(s)) <==>
            StatusHelps(s, key, NextStatus(s.flights[key].exec.status, s.flights[key].latest))
  {
    var t := AfterUpdateExecution(s, key);
    UpdateExecutionWrites(s, key);
    SameChildSame(s.log, s.executions[key], t.executions[key]);
    AtMostOneOwner(s);
    assert t.owners == s.owners;
    WrittenCounts(s, t, key, NextStatus(s.flights[key].exec.status, s.flights[key].latest));
  }

  lemma AtMostOneOwner(s: State)
    requires Front(s)
    ensures forall k, l :: k in s.owners && l in s.owners && s.owners[k].meta.uid == s.owners[l].meta.uid ==> k == l
    ensures forall k :: k in s.executions ==> s.executions[k].meta.key == k
  {
    assert forall k :: k in s.owners ==> OwnerOk(s.log, k, s.owners[k]);
    assert forall k :: k in s.executions ==> ExecOk(s.log, k, s.executions[k]);
  }

  lemma WrittenCounts(s: State, t: State, key: Key, status: ExecutionStatus)
    requires StatusWritten(s, t, key, status)
    requires forall k :: k in s.executions ==> Stamp(t.executions[k]) == Stamp(s.executions[k])
    requires forall k, l :: k in s.owners && l in s.owners && s.owners[k].meta.uid == s.owners[l].meta.uid ==> k == l
    requires forall k :: k in s.executions ==> s.executions[k].meta.key == k
    ensures BelowInStore(RankOf(t), RankOf(s)) <==> StatusHelps(s, key, status)
  {
    var e := s.executions[key];
    StampsSame(s.owners, s.executions, t.executions);
    JoblessSame(s.executions, t.executions, s.jobs);
    SyncAfter(s.log.newest, s.executions, t.executions, s.jobs, key, status);
    OwnersGain(s, t, key, status);
    LastTwo(RankOf(t), RankOf(s));
  }

  lemma LastTwo(a: Rank, b: Rank)
    requires a.unmade == b.unmade && a.jobless == b.jobless && a.surplus == b.surplus
    ensures BelowInStore(a, b) <==>
            a.unsynced < b.unsynced || (a.unsynced <= b.unsynced && a.unmirrored < b.unmirrored)
  {
  }

  lemma SyncAfter(
      newest: Newest, executions: Executions, after: Executions, jobs: Jobs, key: Key, status: ExecutionStatus)
    requires key in executions && (forall k :: k in after <==> k in executions)
    requires forall k :: k in executions && k != key ==> after[k] == executions[k]
    requires SameChild(executions[key], after[key]) && after[key].status == status
    ensures var e := executions[key];
            var synced, syncs := InSync(newest, jobs, e), InSync(newest, jobs, e.(status := status));
            var before, now := OutOfSync(newest, executions, jobs), OutOfSync(newest, after, jobs);
            && (synced == syncs ==> now == before) && (!synced && syncs ==> now < before)
            && (synced && !syncs ==> !(now <= before))
  {
    var before, now := OutOfSync(newest, executions, jobs), OutOfSync(newest, after, jobs);
    assert InSync(newest, jobs, after[key]) == InSync(newest, jobs, executions[key].(status := status));
    assert key in before <==> !InSync(newest, jobs, executions[key]);
    assert key in now <==> !InSync(newest, jobs, after[key]);
  }

  /** How a phase written to the execution at key bears on the owner being in step. */
  ghost predicate Follows(executions: Executions, after: Executions, key: Key, phase: Phase, o: Owner)
    requires key in executions
  {
    if IsNewest(executions, o.meta.uid, Some(executions[key])) then
      && (Mirrors(executions, o) <==>
          o.status.lastExecution == key.name && o.status.phase == executions[key].status.phase)
      && (Mirrors(after, o) <==> o.status.lastExecution == key.name && o.status.phase == phase)
    else Mirrors(executions, o) <==> Mirrors(after, o)
  }

  lemma OwnersGain(s: State, t: State, key: Key, status: ExecutionStatus)
    requires StatusWritten(s, t, key, status)
    requires forall k, l :: k in s.owners && l in s.owners && s.owners[k].meta.uid == s.owners[l].meta.uid ==> k == l
    requires forall k :: k in s.executions ==> s.executions[k].meta.key == k
    ensures Unmirrored(t.owners, t.executions) < Unmirrored(s.owners, s.executions) <==>
            OwnerGains(s.owners, s.executions, key, status.phase)
  {
    var e, e' := s.executions[key], t.executions[key];
    forall k | k in s.owners ensures Follows(s.executions, t.executions, key, status.phase, s.owners[k]) {
      MirrorsAfter(s.executions, t.executions, key, s.owners[k]);
    }
    OneGains(s.owners, s.executions, t.executions, key, status.phase);
  }

  lemma MirrorsAfter(executions: Executions, after: Executions, key: Key, o: Owner)
    requires key in executions && key in after && SameChild(executions[key], after[key])
    requires forall k :: k in after <==> k in executions
    requires forall k :: k in executions && k != key ==> after[k] == executions[k]
    requires forall k :: k in executions ==> executions[k].meta.key == k
    ensures Follows(executions, after, key, after[key].status.phase, o)
  {
    var uid := o.meta.uid;
    if IsNewest(executions, uid, Some(executions[key])) {
      assert IsNewest(after, uid, Some(after[key]));
      forall f: Execution | IsNewest(executions, uid, Some(f)) ensures f == executions[key] {
        NewestUnique(executions, uid, Some(f), Some(executions[key]));
      }
      forall f: Execution | IsNewest(after, uid, Some(f)) ensures f == after[key] {
        NewestUnique(after, uid, Some(f), Some(after[key]));
      }
    } else {
      forall f: Execution ensures IsNewest(executions, uid, Some(f)) <==> IsNewest(after, uid, Some(f)) {
        NewestElsewhere(executions, after, key, uid, f);
      }
    }
  }

  lemma NewestElsewhere(executions: Executions, after: Executions, key: Key, uid: Uid, f: Execution)
    requires key in executions && key in after && SameChild(executions[key], after[key])
    requires forall k :: k in after <==> k in executions
    requires forall k :: k in executions && k != key ==> after[k] == executions[k]
    requires executions[key].meta.key == key && !IsNewest(executions, uid, Some(executions[key]))
    ensures IsNewest(executions, uid, Some(f)) <==> IsNewest(after, uid, Some(f))
  {
    assert IsNewest(executions, uid, Some(f)) ==> f.meta.key != key;
    assert IsNewest(after, uid, Some(f)) && f.meta.key == key ==> IsNewest(executions, uid, Some(executions[key]));
  }

  lemma OneGains(owners: Owners, executions: Executions, after: Executions, key: Key, phase: Phase)
    requires key in executions
    requires forall k, l :: k in owners && l in owners && owners[k].meta.uid == owners[l].meta.uid ==> k == l
    requires forall k :: k in owners ==> Follows(executions, after, key, phase, owners[k])
    ensures Unmirrored(owners, after) < Unmirrored(owners, executions) <==> OwnerGains(owners, executions, key, phase)
  {
    if OwnerGains(owners, executions, key, phase) {
      SomeGain(owners, executions, after, key, phase);
    } else {
      NoneGains(owners, executions, after, key, phase);
    }
  }

  lemma SomeGain(owners: Owners, executions: Executions, after: Executions, key: Key, phase: Phase)
    requires key in executions && OwnerGains(owners, executions, key, phase)
    requires forall k, l :: k in owners && l in owners && owners[k].meta.uid == owners[l].meta.uid ==> k == l
    requires forall k :: k in owners ==> Follows(executions, after, key, phase, owners[k])
    ensures Unmirrored(owners, after) < Unmirrored(owners, executions)
  {
    var e := executions[key];
    var k :| k in owners && IsNewest(executions, owners[k].meta.uid, Some(e))
             && owners[k].status.lastExecution == key.name && owners[k].status.phase == phase;
    assert k in Unmirrored(owners, executions) && k !in Unmirrored(owners, after);
    forall l | l in owners && l != k && Mirrors(executions, owners[l]) ensures Mirrors(after, owners[l]) {
      assert !IsNewest(executions, owners[l].meta.uid, Some(e));
    }
  }

  lemma NoneGains(owners: Owners, executions: Executions, after: Executions, key: Key, phase: Phase)
    requires key in executions && !OwnerGains(owners, executions, key, phase)
    requires forall k :: k in owners ==> Follows(executions, after, key, phase, owners[k])
    ensures !(Unmirrored(owners, after) < Unmirrored(owners, executions))
  {
    forall k | k in owners && Mirrors(after, owners[k]) ensures Mirrors(executions, owners[k]) {
    }
  }

  // ---------- all five ----------

  /** The write is one the store can use: what its reconcile holds is still so. */
  ghost predicate Useful(s: State, a: Action)
    requires Enabled(s, a)
  {
    match a
    case CreateExecution(key, _, _) => SameOwner(s.owners, key, s.flights[key].owner)
    case UpdateOwner(key) =>
      s.flights[key].last.Some? && HeldAsStored(s.executions, s.flights[key].owner.meta.uid, s.flights[key].last.value)
    case CreateJob(key, _, _, _) =>
      StoredAs(s.executions, key, s.flights[key].exec.meta.uid) && Jobless(s.jobs, s.flights[key].exec.meta.uid)
    case PruneJob(_, _) => true
    case UpdateExecution(key) =>
      key in s.executions && StatusHelps(s, key, NextStatus(s.flights[key].exec.status, s.flights[key].latest))
    case _ => false
  }

  predicate IsWrite(a: Action) {
    a.CreateExecution? || a.UpdateOwner? || a.CreateJob? || a.PruneJob? || a.UpdateExecution?
  }

  lemma OnlyWritesWrite(s: State, a: Action)
    requires Enabled(s, a) && Quiet(a) && Writes(s, a)
    ensures IsWrite(a)
  {
  }

  lemma MirrorWasApplied(s: State, key: Key)
    requires CanUpdateOwner(s, key) && Store(AfterUpdateOwner(s, key)) != Store(s)
    ensures OwnerCurrent(s, s.flights[key].owner)
  {
  }

  lemma PruneWasApplied(s: State, key: Key, deleted: bool)
    requires CanPrune(s, key) && Store(AfterPruneJob(s, key, deleted)) != Store(s)
    ensures deleted && s.flights[key].stale[0].meta.key in s.jobs
  {
  }

  lemma StatusWasApplied(s: State, key: Key)
    requires CanUpdateExecution(s, key) && Store(AfterUpdateExecution(s, key)) != Store(s)
    ensures var x := s.flights[key].exec;
            ExecCurrent(s, x) && NextStatus(x.status, s.flights[key].latest) != x.status
  {
  }

  lemma OwnerWriteCounts(s: State, a: Action)
    requires Front(s) && BackAt(s) && Enabled(s, a) && Writes(s, a) && (a.CreateExecution? || a.UpdateOwner?)
    ensures BelowInStore(RankOf(Apply(s, a)), RankOf(s)) <==> Useful(s, a)
  {
    if a.CreateExecution? {
      CreateExecutionCounts(s, a.key, a.uid, a.name);
    } else {
      MirrorWasApplied(s, a.key);
      UpdateOwnerCounts(s, a.key);
    }
  }

  lemma JobWriteCounts(s: State, a: Action)
    requires Front(s) && BackAt(s) && Enabled(s, a) && a.CreateJob?
    ensures BelowInStore(RankOf(Apply(s, a)), RankOf(s)) <==> Useful(s, a)
  {
    CreateJobCounts(s, a.key, a.uid, a.name, a.defaultImage);
  }

  lemma PruneWriteCounts(s: State, a: Action)
    requires Front(s) && BackAt(s) && Enabled(s, a) && Writes(s, a) && a.PruneJob?
    ensures BelowInStore(RankOf(Apply(s, a)), RankOf(s)) <==> Useful(s, a)
  {
    PruneWasApplied(s, a.key, a.deleted);
    PruneJobCounts(s, a.key);
  }

  lemma StatusWriteCounts(s: State, a: Action)
    requires Front(s) && Enabled(s, a) && Writes(s, a) && a.UpdateExecution?
    ensures BelowInStore(RankOf(Apply(s, a)), RankOf(s)) <==> Useful(s, a)
  {
    StatusWasApplied(s, a.key);
    UpdateExecutionCounts(s, a.key);
  }

  /**
   * When the five counts of the store get smaller: a write by any of the reconcilers improves them exactly
   * when what that reconcile holds still fits the store. Other reconciles do not matter.
   */
  lemma FiveCountsExactly(s: State, a: Action, freshReads: bool)
    requires Reachable(s, freshReads) && Enabled(s, a) && Quiet(a) && Writes(s, a)
    ensures BelowInStore(RankOf(Apply(s, a)), RankOf(s)) <==> Useful(s, a)
  {
    ReachableBase(s, freshReads);
    WriteCounts(s, a);
  }

  lemma WriteCounts(s: State, a: Action)
    requires Front(s) && BackAt(s) && Enabled(s, a) && Quiet(a) && Writes(s, a)
    ensures BelowInStore(RankOf(Apply(s, a)), RankOf(s)) <==> Useful(s, a)
  {
    OnlyWritesWrite(s, a);
    if a.CreateExecution? || a.UpdateOwner? {
      OwnerWriteCounts(s, a);
    } else if a.CreateJob? {
      JobWriteCounts(s, a);
    } else if a.PruneJob? {
      PruneWriteCounts(s, a);
    } else {
      StatusWriteCounts(s, a);
    }
  }
}
