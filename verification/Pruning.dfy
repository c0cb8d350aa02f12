/** What pruning leaves: which Jobs a fresh reconcile keeps, and what a failed delete does. */
module Pruning {
  import opened Basics
  import opened Objects
  import opened Decisions
  import opened Selection
  import opened Protocol
  import opened Invariants
  import opened BaseSteps
  import opened BaseRuns
  import opened FreshSteps

  /** The whole prune loop; deleted says which of its deletes succeed. */
  ghost function PruneLoop(s: State, key: Key, deleted: seq<bool>): State
    requires key in s.flights && s.flights[key].ExecJob? && |s.flights[key].stale| == |deleted|
    decreases |deleted|
  {
    if deleted == [] then s else PruneLoop(AfterPruneJob(s, key, deleted[0]), key, deleted[1..])
  }

  /** The names whose deletes succeed. */
  ghost function Removed(stale: seq<Job>, deleted: seq<bool>): set<Key>
    requires |stale| == |deleted|
  {
    set i | 0 <= i < |stale| && deleted[i] :: stale[i].meta.key
  }

  lemma RemovedSplits(stale: seq<Job>, deleted: seq<bool>)
    requires |stale| == |deleted| > 0
    ensures Removed(stale, deleted) == (if deleted[0] then {stale[0].meta.key} else {})
            + Removed(stale[1..], deleted[1..])
  {
    var first := if deleted[0] then {stale[0].meta.key} else {};
    forall k | k in Removed(stale, deleted) ensures k in first + Removed(stale[1..], deleted[1..]) {
      var i :| 0 <= i < |stale| && deleted[i] && stale[i].meta.key == k;
      if i > 0 {
        assert deleted[1..][i - 1] && stale[1..][i - 1].meta.key == k;
      }
    }
    forall k | k in Removed(stale[1..], deleted[1..]) ensures k in Removed(stale, deleted) {
      var i :| 0 <= i < |stale| - 1 && deleted[1..][i] && stale[1..][i].meta.key == k;
      assert deleted[i + 1] && stale[i + 1].meta.key == k;
    }
  }

  lemma OneTurn(s: State, key: Key, deleted: bool)
    requires key in s.flights && s.flights[key].ExecJob? && s.flights[key].stale != []
    ensures var t := AfterPruneJob(s, key, deleted);
            && t.jobs == s.jobs - (if deleted then {s.flights[key].stale[0].meta.key} else {})
            && t.executions == s.executions && t.owners == s.owners
            && key in t.flights && t.flights[key] == s.flights[key].(stale := s.flights[key].stale[1..])
  {
  }

  /** The loop removes exactly the names whose deletes succeed. */
  lemma {:induction false} PruneLoopRemoves(s: State, key: Key, deleted: seq<bool>)
    requires key in s.flights && s.flights[key].ExecJob? && |s.flights[key].stale| == |deleted|
    ensures var t := PruneLoop(s, key, deleted);
            && t.jobs == s.jobs - Removed(s.flights[key].stale, deleted)
            && t.executions == s.executions && t.owners == s.owners
            && key in t.flights && t.flights[key] == s.flights[key].(stale := [])
    decreases |deleted|
  {
    if deleted != [] {
      OneTurn(s, key, deleted[0]);
      RemovedSplits(s.flights[key].stale, deleted);
      PruneLoopRemoves(AfterPruneJob(s, key, deleted[0]), key, deleted[1..]);
    }
  }

  /** latest and stale are all the stored Jobs of an execution, newest first. */
  ghost predicate AllJobs(jobs: Jobs, uid: Uid, latest: Job, stale: seq<Job>) {
    && latest.meta.key in jobs && jobs[latest.meta.key] == latest && ControlledBy(latest.meta, uid)
    && (forall i :: 0 <= i < |stale| ==>
          && stale[i].meta.key in jobs && jobs[stale[i].meta.key] == stale[i] && ControlledBy(stale[i].meta, uid)
          && stale[i].meta.created < latest.meta.created)
    && (forall i, j :: 0 <= i < j < |stale| ==> stale[i].meta.key != stale[j].meta.key)
    && (forall k :: k in jobs && ControlledBy(jobs[k].meta, uid) ==>
          jobs[k].meta.key == k && (k == latest.meta.key || jobs[k] in stale))
  }

  lemma JobsKeyed(log: Log, jobs: Jobs)
    requires JobsOk(log.made, log.specs, jobs) && MadeOk(log.home, log.made, log.newest)
    ensures forall k :: k in jobs ==> jobs[k].meta.key == k
  {
    forall k | k in jobs ensures jobs[k].meta.key == k {
      assert JobOk(log.made, log.specs, k, jobs[k]);
    }
  }

  lemma FreshListIsAll(log: Log, jobs: Jobs, key: Key, uid: Uid, items: seq<Job>)
    requires JobsOk(log.made, log.specs, jobs) && MadeOk(log.home, log.made, log.newest) && ViewOk(log.made, jobs)
    requires Home(log.home, uid, key) && IsListing(jobs, key.ns, items)
    ensures var owned := Sort(Owned(items, uid));
            owned != [] ==> AllJobs(jobs, uid, owned[0], owned[1..])
  {
    JobsAtHome(log, jobs, key, uid);
    JobsKeyed(log, jobs);
    ListedStrict(log, jobs, key.ns, uid, items);
    SortedIsAll(jobs, key.ns, uid, items, Sort(Owned(items, uid)));
  }

  lemma ListedStrict(log: Log, jobs: Jobs, ns: string, uid: Uid, items: seq<Job>)
    requires MadeOk(log.home, log.made, log.newest) && ViewOk(log.made, jobs) && IsListing(jobs, ns, items)
    ensures StrictlyNewestFirst(Sort(Owned(items, uid)))
    ensures forall y :: y in Sort(Owned(items, uid)) <==> y in items && ControlledBy(y.meta, uid)
  {
    NoTies(log, jobs, ns, items, uid);
    JobsStrict(items, uid);
  }

  lemma JobsStrict(items: seq<Job>, uid: Uid)
    requires forall i, j ::
               0 <= i < j < |items| && ControlledBy(items[i].meta, uid) && ControlledBy(items[j].meta, uid) ==>
                 items[i].meta.created != items[j].meta.created
    ensures StrictlyNewestFirst(Sort(Owned(items, uid)))
    ensures forall y :: y in Sort(Owned(items, uid)) <==> y in items && ControlledBy(y.meta, uid)
  {
    SortOwnedStrict(items, uid);
    forall y ensures y in Sort(Owned(items, uid)) <==> y in items && ControlledBy(y.meta, uid) {
    }
  }

  lemma SortedIsAll(jobs: Jobs, ns: string, uid: Uid, items: seq<Job>, owned: seq<Job>)
    requires IsListing(jobs, ns, items) && StrictlyNewestFirst(owned)
    requires forall y :: y in owned <==> y in items && ControlledBy(y.meta, uid)
    requires forall k :: k in jobs && ControlledBy(jobs[k].meta, uid) ==> k.ns == ns
    requires forall k :: k in jobs ==> jobs[k].meta.key == k
    ensures owned != [] ==> AllJobs(jobs, uid, owned[0], owned[1..])
  {
    forall i | 0 <= i < |owned|
      ensures owned[i].meta.key in jobs && jobs[owned[i].meta.key] == owned[i] && ControlledBy(owned[i].meta, uid)
    {
      assert owned[i] in owned;
    }
    if owned != [] {
      assert owned == [owned[0]] + owned[1..];
      forall k | k in jobs && ControlledBy(jobs[k].meta, uid) && k != owned[0].meta.key ensures jobs[k] in owned[1..] {
        assert jobs[k] in owned;
      }
    }
  }

  /** latest is the only Job of uid. */
  ghost predicate OnlyJob(jobs: Jobs, uid: Uid, latest: Job) {
    && latest.meta.key in jobs && jobs[latest.meta.key] == latest
    && forall k :: k in jobs && ControlledBy(jobs[k].meta, uid) ==> k == latest.meta.key
  }

  lemma AllRemoved(stale: seq<Job>, deleted: seq<bool>)
    requires |stale| == |deleted| && forall i :: 0 <= i < |deleted| ==> deleted[i]
    ensures forall j :: j in stale ==> j.meta.key in Removed(stale, deleted)
  {
  }

  lemma WhatIsLeft(jobs: Jobs, uid: Uid, latest: Job, stale: seq<Job>, deleted: seq<bool>)
    requires AllJobs(jobs, uid, latest, stale) && |stale| == |deleted|
    ensures var left := jobs - Removed(stale, deleted);
            && IsNewest(left, uid, Some(latest))
            && (OnlyJob(left, uid, latest) <==> forall i :: 0 <= i < |deleted| ==> deleted[i])
            && (forall k :: k in jobs && !ControlledBy(jobs[k].meta, uid) ==> k in left && left[k] == jobs[k])
  {
    var left := jobs - Removed(stale, deleted);
    forall k | k in jobs && ControlledBy(jobs[k].meta, uid) && k != latest.meta.key
      ensures jobs[k].meta.created < latest.meta.created
    {
      assert jobs[k] in stale;
    }
    if i :| 0 <= i < |deleted| && !deleted[i] {
      forall j | 0 <= j < |deleted| && deleted[j] ensures stale[j].meta.key != stale[i].meta.key {
        assert j < i || i < j;
      }
      assert stale[i].meta.key in left;
    } else {
      AllRemoved(stale, deleted);
    }
  }

  /** A reconcile of a reachable state that is about to list Jobs from the current store. */
  ghost predicate FreshList(s: State, key: Key, items: seq<Job>, freshReads: bool) {
    Reachable(s, freshReads) && CanListJobs(s, key, s.jobs, items)
  }

  /** What that reconcile can rely on. */
  ghost predicate Listing(s: State, key: Key, items: seq<Job>) {
    && CanListJobs(s, key, s.jobs, items)
    && JobsOk(s.log.made, s.log.specs, s.jobs) && MadeOk(s.log.home, s.log.made, s.log.newest)
    && ViewOk(s.log.made, s.jobs)
    && s.flights[key].exec.meta.key == key && Home(s.log.home, s.flights[key].exec.meta.uid, key)
  }

  lemma ListHistory(s: State, key: Key, items: seq<Job>, freshReads: bool)
    requires FreshList(s, key, items, freshReads)
    ensures Listing(s, key, items)
  {
    ReachableBase(s, freshReads);
    BaseHistory(s, key, items);
  }

  lemma BaseHistory(s: State, key: Key, items: seq<Job>)
    requires Base(s) && CanListJobs(s, key, s.jobs, items)
    ensures Listing(s, key, items)
  {
    assert FlightOk(s.log, s.owners, s.executions, key, s.flights[key]);
    assert ViewOk(s.log.made, s.jobs);
  }

  /** The store and the reconcile after a fresh list and its prune loop. */
  ghost predicate Pruned(s: State, key: Key, items: seq<Job>, deleted: seq<bool>, t: State)
    requires CanListJobs(s, key, s.jobs, items)
  {
    var f := AfterListJobs(s, key, items).flights[key];
    f.ExecJob? && |f.stale| == |deleted| && t == PruneLoop(AfterListJobs(s, key, items), key, deleted)
  }

  lemma PrunedJobs(s: State, key: Key, items: seq<Job>, deleted: seq<bool>, t: State)
    requires CanListJobs(s, key, s.jobs, items) && Pruned(s, key, items, deleted, t)
    ensures var owned := Sort(Owned(items, s.flights[key].exec.meta.uid));
            && owned != [] && |owned| - 1 == |deleted|
            && t.jobs == s.jobs - Removed(owned[1..], deleted)
            && key in t.flights && t.flights[key] == ExecJob(s.flights[key].exec, owned[0], [])
  {
    PruneLoopRemoves(AfterListJobs(s, key, items), key, deleted);
  }

  /**
   * Pruning after a fresh list, in a store that old lists may have filled with duplicates: the Job it goes on
   * with is the newest stored, and stays so; it is the only one left exactly when no delete failed; and no
   * other execution loses a Job.
   */
  lemma PruneLeavesOne(s: State, key: Key, items: seq<Job>, deleted: seq<bool>, t: State, freshReads: bool)
    requires FreshList(s, key, items, freshReads) && Pruned(s, key, items, deleted, t)
    ensures var uid := s.flights[key].exec.meta.uid;
            && key in t.flights && t.flights[key].ExecJob? && t.flights[key].stale == []
            && var latest := t.flights[key].latest;
               && IsNewest(s.jobs, uid, Some(latest)) && IsNewest(t.jobs, uid, Some(latest))
               && (OnlyJob(t.jobs, uid, latest) <==> forall i :: 0 <= i < |deleted| ==> deleted[i])
               && (forall k :: k in s.jobs && !ControlledBy(s.jobs[k].meta, uid) ==>
                  k in t.jobs && t.jobs[k] == s.jobs[k])
  {
    ListHistory(s, key, items, freshReads);
    PruneKeepsNewest(s, key, items, deleted, t);
  }

  lemma PruneKeepsNewest(s: State, key: Key, items: seq<Job>, deleted: seq<bool>, t: State)
    requires Listing(s, key, items) && Pruned(s, key, items, deleted, t)
    ensures var uid := s.flights[key].exec.meta.uid;
            && key in t.flights && t.flights[key].ExecJob? && t.flights[key].stale == []
            && var latest := t.flights[key].latest;
               && IsNewest(s.jobs, uid, Some(latest)) && IsNewest(t.jobs, uid, Some(latest))
               && (OnlyJob(t.jobs, uid, latest) <==> forall i :: 0 <= i < |deleted| ==> deleted[i])
               && (forall k :: k in s.jobs && !ControlledBy(s.jobs[k].meta, uid) ==>
                  k in t.jobs && t.jobs[k] == s.jobs[k])
  {
    var uid := s.flights[key].exec.meta.uid;
    var owned := Sort(Owned(items, uid));
    PrunedJobs(s, key, items, deleted, t);
    FreshListIsAll(s.log, s.jobs, key, uid, items);
    WhatIsLeft(s.jobs, uid, owned[0], owned[1..], deleted);
    NewestOfAll(s.jobs, uid, owned[0], owned[1..]);
  }

  lemma NewestOfAll(jobs: Jobs, uid: Uid, latest: Job, stale: seq<Job>)
    requires AllJobs(jobs, uid, latest, stale)
    ensures IsNewest(jobs, uid, Some(latest))
  {
    forall k | k in jobs && ControlledBy(jobs[k].meta, uid) && k != latest.meta.key
      ensures jobs[k].meta.created < latest.meta.created
    {
      assert jobs[k] in stale;
    }
  }

  /** Selecting again after pruning, from any fresh list, returns the same Job, whichever deletes failed. */
  lemma ReselectionIsStable(
      s: State, key: Key, items: seq<Job>, deleted: seq<bool>, t: State, again: seq<Job>, freshReads: bool)
    requires FreshList(s, key, items, freshReads) && Pruned(s, key, items, deleted, t)
    requires IsListing(t.jobs, key.ns, again)
    ensures var uid := s.flights[key].exec.meta.uid;
            Select(items, uid).Some? && Select(again, uid) == Select(items, uid)
  {
    ListHistory(s, key, items, freshReads);
    SelectedAgain(s, key, items, deleted, t, again);
  }

  lemma SelectedAgain(s: State, key: Key, items: seq<Job>, deleted: seq<bool>, t: State, again: seq<Job>)
    requires Listing(s, key, items) && Pruned(s, key, items, deleted, t) && IsListing(t.jobs, key.ns, again)
    ensures var uid := s.flights[key].exec.meta.uid;
            Select(items, uid).Some? && Select(again, uid) == Select(items, uid)
  {
    var uid := s.flights[key].exec.meta.uid;
    PruneKeepsNewest(s, key, items, deleted, t);
    PrunedJobs(s, key, items, deleted, t);
    LeftAtHome(s, key, items, deleted, t);
    SelectFindsNewest(t.jobs, key.ns, again, uid);
    NewestUnique(t.jobs, uid, Select(again, uid), Select(items, uid));
  }

  lemma LeftAtHome(s: State, key: Key, items: seq<Job>, deleted: seq<bool>, t: State)
    requires Listing(s, key, items) && Pruned(s, key, items, deleted, t)
    ensures var uid := s.flights[key].exec.meta.uid;
            && (forall k :: k in t.jobs && ControlledBy(t.jobs[k].meta, uid) ==>
               k.ns == key.ns && t.jobs[k].meta.key == k)
            && (forall k, l :: k in t.jobs && l in t.jobs && k != l
                               && ControlledBy(t.jobs[k].meta, uid) && ControlledBy(t.jobs[l].meta, uid) ==>
                  t.jobs[k].meta.created != t.jobs[l].meta.created)
  {
    var uid := s.flights[key].exec.meta.uid;
    PrunedJobs(s, key, items, deleted, t);
    JobsAtHome(s.log, s.jobs, key, uid);
    JobsKeyed(s.log, s.jobs);
    JobsApart(s.log, s.jobs, uid);
  }

  lemma JobsApart(log: Log, jobs: Jobs, uid: Uid)
    requires MadeOk(log.home, log.made, log.newest) && ViewOk(log.made, jobs)
    ensures forall k, l ::
              k in jobs && l in jobs && k != l && ControlledBy(jobs[k].meta, uid) && ControlledBy(jobs[l].meta, uid) ==>
                jobs[k].meta.created != jobs[l].meta.created
  {
    forall k, l | k in jobs && l in jobs && k != l && ControlledBy(jobs[k].meta, uid) && ControlledBy(jobs[l].meta, uid)
      ensures jobs[k].meta.created != jobs[l].meta.created
    {
      assert Traced(log.made, k, jobs[k].meta) && Traced(log.made, l, jobs[l].meta);
    }
  }

  /** Every Job of the list belongs to the execution at key, so its deletion wakes that key. */
  ghost predicate WakeOnly(stale: seq<Job>, key: Key) {
    forall i :: 0 <= i < |stale| ==> Wakes(stale[i].meta) == {key}
  }

  ghost predicate Distinct(stale: seq<Job>, jobs: Jobs) {
    && (forall i :: 0 <= i < |stale| ==> stale[i].meta.key in jobs)
    && (forall i, j :: 0 <= i < j < |stale| ==> stale[i].meta.key != stale[j].meta.key)
  }

  /** The loop wakes the execution exactly when one of its deletes succeeds. */
  lemma {:induction false} PruneLoopWakes(s: State, key: Key, deleted: seq<bool>)
    requires key in s.flights && s.flights[key].ExecJob? && |s.flights[key].stale| == |deleted|
    requires WakeOnly(s.flights[key].stale, key) && Distinct(s.flights[key].stale, s.jobs)
    ensures PruneLoop(s, key, deleted).dirty ==
            if exists i :: 0 <= i < |deleted| && deleted[i] then s.dirty + {key} else s.dirty
    decreases |deleted|
  {
    if deleted != [] {
      var t := AfterPruneJob(s, key, deleted[0]);
      OneTurn(s, key, deleted[0]);
      assert t.dirty == if deleted[0] then s.dirty + {key} else s.dirty;
      PruneLoopWakes(t, key, deleted[1..]);
      assert forall i :: 0 < i < |deleted| ==> deleted[i] == deleted[1..][i - 1];
    }
  }

  lemma StaleWakeKey(log: Log, jobs: Jobs, key: Key, uid: Uid, latest: Job, stale: seq<Job>)
    requires JobsOk(log.made, log.specs, jobs) && MadeOk(log.home, log.made, log.newest) && Home(log.home, uid, key)
    requires AllJobs(jobs, uid, latest, stale)
    ensures WakeOnly(stale, key) && Distinct(stale, jobs)
  {
    forall i | 0 <= i < |stale| ensures Wakes(stale[i].meta) == {key} {
      var k := stale[i].meta.key;
      assert JobOk(log.made, log.specs, k, jobs[k]) && MadeJobOk(log.home, log.newest, k, jobs[k].meta);
    }
  }

  /** The status shown is final and up to date. */
  predicate FinalShown(s: State, key: Key) {
    && key in s.flights && s.flights[key].ExecJob? && s.flights[key].stale == []
    && NextStatus(s.flights[key].exec.status, s.flights[key].latest) == s.flights[key].exec.status
    && IsTerminal(s.flights[key].exec.status.phase)
  }

  /** From s the reconcile of key ends normally, and leaves u. */
  ghost predicate EndsIn(s: State, key: Key, u: State) {
    && CanUpdateExecution(s, key)
    && var t := AfterUpdateExecution(s, key);
       key in t.flights && t.flights[key] == Ended(Done) && u == AfterFinish(t, key)
  }

  lemma FinalUnchanged(s: State, key: Key) returns (u: State)
    requires FinalShown(s, key)
    ensures EndsIn(s, key, u) && u.jobs == s.jobs && u.dirty == s.dirty
  {
    u := AfterFinish(AfterUpdateExecution(s, key), key);
  }

  lemma LoopWakes(s: State, key: Key, items: seq<Job>, deleted: seq<bool>, t: State)
    requires Listing(s, key, items) && Pruned(s, key, items, deleted, t)
    ensures t.dirty == if exists i :: 0 <= i < |deleted| && deleted[i] then s.dirty + {key} else s.dirty
  {
    var uid := s.flights[key].exec.meta.uid;
    var owned := Sort(Owned(items, uid));
    PrunedJobs(s, key, items, deleted, t);
    FreshListIsAll(s.log, s.jobs, key, uid, items);
    StaleWakeKey(s.log, s.jobs, key, uid, owned[0], owned[1..]);
    PruneLoopWakes(AfterListJobs(s, key, items), key, deleted);
  }

  /**
   * When failed deletes are forgotten. Say the status shown is final and up to date. Then, after pruning, the
   * rest of the reconcile writes nothing, and its key is queued again, so that the surplus is looked at once
   * more, only if it was queued before or some delete of the loop succeeded.
   */
  lemma FailedDeletesForgotten(s: State, key: Key, items: seq<Job>, deleted: seq<bool>, t: State, freshReads: bool)
    returns (u: State)
    requires FreshList(s, key, items, freshReads) && Pruned(s, key, items, deleted, t) && FinalShown(t, key)
    ensures EndsIn(t, key, u) && u.jobs == t.jobs
    ensures key in u.dirty <==> key in s.dirty || exists i :: 0 <= i < |deleted| && deleted[i]
  {
    ListHistory(s, key, items, freshReads);
    LoopWakes(s, key, items, deleted, t);
    u := FinalUnchanged(t, key);
  }
}
