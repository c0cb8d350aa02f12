/** Whole reconciles of an execution, as runs: the building blocks of concrete runs. */
module Rounds {
  import opened Objects
  import opened Decisions
  import opened Selection
  import opened Protocol
  import opened Invariants
  import opened BackSteps
  import opened ApiServer

  /** The reconcile of key has been popped and come as far as f; nothing else has changed since s. */
  function Busy(s: State, key: Key, f: Flight): State {
    s.(dirty := s.dirty - {key}, flights := s.flights[key := f])
  }

  lemma PopTo(s: State, key: Key, freshReads: bool)
    requires Arrived(s, freshReads) && key in s.dirty && key !in s.flights
    ensures Arrived(Busy(s, key, Popped), freshReads)
  {
    ArrivesOn(s, Pop(key), freshReads);
    assert Apply(s, Pop(key)) == Busy(s, key, Popped);
  }

  lemma BusyOn(s: State, key: Key, f: Flight, a: Action, next: Flight, freshReads: bool)
    requires Arrived(Busy(s, key, f), freshReads)
    requires Enabled(Busy(s, key, f), a) && (freshReads ==> FreshRead(Busy(s, key, f), a))
    requires Apply(Busy(s, key, f), a) == SetFlight(Busy(s, key, f), key, next)
    ensures Arrived(Busy(s, key, next), freshReads)
  {
    ArrivesOn(Busy(s, key, f), a, freshReads);
    assert s.flights[key := f][key := next] == s.flights[key := next];
  }

  lemma GetTo(s: State, key: Key, freshReads: bool)
    requires Arrived(s, freshReads) && key in s.dirty && key !in s.flights
    requires key.kind == ExecutionKind && key in s.executions
    ensures Arrived(Busy(s, key, ExecGot(s.executions[key])), freshReads)
  {
    PopTo(s, key, freshReads);
    BusyOn(s, key, Popped, GetExecution(key), ExecGot(s.executions[key]), freshReads);
  }

  lemma OwnerGetTo(s: State, key: Key, freshReads: bool)
    requires Arrived(s, freshReads) && key in s.dirty && key !in s.flights && IsOwnerKind(key.kind)
    requires key in s.owners
    ensures Arrived(Busy(s, key, OwnerGot(s.owners[key])), freshReads)
  {
    PopTo(s, key, freshReads);
    BusyOn(s, key, Popped, GetOwner(key), OwnerGot(s.owners[key]), freshReads);
  }

  lemma OwnerListTo(s: State, key: Key, o: Owner, items: seq<Execution>, freshReads: bool)
    requires Arrived(Busy(s, key, OwnerGot(o)), freshReads) && IsListing(s.executions, o.meta.key.ns, items)
    ensures Arrived(Busy(s, key, OwnerListed(o, Select(items, o.meta.uid))), freshReads)
  {
    BusyOn(s, key, OwnerGot(o), ListExecutions(key, items), OwnerListed(o, Select(items, o.meta.uid)), freshReads);
  }

  lemma ListTo(s: State, key: Key, x: Execution, view: Jobs, items: seq<Job>, freshReads: bool)
    requires Arrived(Busy(s, key, ExecGot(x)), freshReads)
    requires view in s.log.views && (freshReads ==> view == s.jobs) && IsListing(view, x.meta.key.ns, items)
    ensures var owned := Sort(Owned(items, x.meta.uid));
            Arrived(Busy(s, key, if owned == [] then ExecJobless(x) else ExecJob(x, owned[0], owned[1..])),
                freshReads)
  {
    var owned := Sort(Owned(items, x.meta.uid));
    BusyOn(s, key, ExecGot(x), ListJobs(key, view, items),
           if owned == [] then ExecJobless(x) else ExecJob(x, owned[0], owned[1..]), freshReads);
  }

  lemma ReadTo(s: State, key: Key, x: Execution, freshReads: bool)
    requires Arrived(Busy(s, key, ExecJobless(x)), freshReads) && ModuleKeyOf(x.spec) in s.owners
    ensures Arrived(Busy(s, key, ExecModule(x, s.owners[ModuleKeyOf(x.spec)])), freshReads)
  {
    BusyOn(s, key, ExecJobless(x), ReadModule(key), ExecModule(x, s.owners[ModuleKeyOf(x.spec)]), freshReads);
  }

  function WithJob(s: State, j: Job, u: Uid): State {
    s.(jobs := s.jobs[j.meta.key := j], log := LogJob(s.log, s.jobs, j, u))
  }

  /** A new uid and a new name, later than the last Job of this execution. */
  predicate NewJobId(s: State, x: Execution, uid: Uid, name: string) {
    && uid !in s.log.home && !Used(s.log.home, Key(JobKind, x.meta.key.ns, name))
    && (x.meta.uid in s.log.newest ==> s.log.newest[x.meta.uid].created < s.now)
  }

  lemma CreateTo(s: State, key: Key, x: Execution, m: Owner, uid: Uid, name: string, freshReads: bool)
    requires Arrived(Busy(s, key, ExecModule(x, m)), freshReads) && m.spec.ModuleSpec? && x.meta.key == key
    requires key.kind == ExecutionKind && NewJobId(s, x, uid, name) && key in s.dirty && key !in s.flights
    ensures Arrived(WithJob(s, NewJob(x, m, "image", uid, name, s.now), x.meta.uid), freshReads)
  {
    var b := Busy(s, key, ExecModule(x, m));
    var a := CreateJob(key, uid, name, "image");
    var j := NewJob(x, m, "image", uid, name, s.now);
    assert Wakes(j.meta) == {key};
    ArrivesOn(b, a, freshReads);
    ArrivesOn(Apply(b, a), Finish(key), freshReads);
    Created(s, key, x, m, uid, name, j);
  }

  lemma Created(s: State, key: Key, x: Execution, m: Owner, uid: Uid, name: string, j: Job)
    requires m.spec.ModuleSpec? && j == NewJob(x, m, "image", uid, name, s.now) && Wakes(j.meta) == {key}
    requires key in s.dirty && key !in s.flights
    ensures var b := AfterCreateJob(Busy(s, key, ExecModule(x, m)), key, uid, name, "image");
            b.flights[key].Ended? && AfterFinish(b, key) == WithJob(s, j, x.meta.uid)
  {
    var b := AfterCreateJob(Busy(s, key, ExecModule(x, m)), key, uid, name, "image");
    assert AfterFinish(b, key).dirty == s.dirty;
    assert AfterFinish(b, key).flights == s.flights;
  }

  /** A reconcile that sees no Job, in the list of any moment when there was none, and creates one. */
  lemma JobRound(s: State, key: Key, uid: Uid, name: string, freshReads: bool) returns (j: Job)
    requires Arrived(s, freshReads) && key in s.dirty && key !in s.flights && key.kind == ExecutionKind
    requires key in s.executions && s.executions[key].meta.key == key && NewJobId(s, s.executions[key], uid, name)
    requires ModuleKeyOf(s.executions[key].spec) in s.owners
    requires s.owners[ModuleKeyOf(s.executions[key].spec)].spec.ModuleSpec?
    requires map[] in s.log.views && (freshReads ==> s.jobs == map[])
    ensures j == NewJob(s.executions[key], s.owners[ModuleKeyOf(s.executions[key].spec)], "image", uid, name, s.now)
    ensures Arrived(WithJob(s, j, s.executions[key].meta.uid), freshReads)
  {
    var x := s.executions[key];
    var m := s.owners[ModuleKeyOf(x.spec)];
    GetTo(s, key, freshReads);
    assert Sort(Owned<JobSpec, JobStatus>([], x.meta.uid)) == [];
    ListTo(s, key, x, map[], [], freshReads);
    ReadTo(s, key, x, freshReads);
    CreateTo(s, key, x, m, uid, name, freshReads);
    j := NewJob(x, m, "image", uid, name, s.now);
  }

  lemma SortOne(a: Job, uid: Uid)
    requires ControlledBy(a.meta, uid)
    ensures Sort(Owned([a], uid)) == [a]
  {
    assert [a][..0] == [];
    assert Owned([a][..0], uid) == [];
    assert Owned([a], uid) == [a];
  }

  lemma SortTwo(a: Job, b: Job, uid: Uid)
    requires ControlledBy(a.meta, uid) && ControlledBy(b.meta, uid) && a.meta.created > b.meta.created
    ensures Sort(Owned([a, b], uid)) == [a, b]
  {
    assert [a, b][..1] == [a];
    SortOne(a, uid);
    assert Owned([a], uid) == [a] by { assert [a][..0] == [] && Owned([a][..0], uid) == []; }
    assert Owned([a, b], uid) == [a, b];
    assert Sort([a]) == [a];
  }

  /** One turn of the prune loop whose delete fails. */
  lemma KeepTo(s: State, key: Key, x: Execution, latest: Job, stale: Job, freshReads: bool)
    requires Arrived(Busy(s, key, ExecJob(x, latest, [stale])), freshReads)
    ensures Arrived(Busy(s, key, ExecJob(x, latest, [])), freshReads)
  {
    assert [stale][1..] == [];
    BusyOn(s, key, ExecJob(x, latest, [stale]), PruneJob(key, false), ExecJob(x, latest, []), freshReads);
  }

  /** The stored execution gets this status and a new version, which wakes whom it concerns. */
  function Shown(s: State, key: Key, status: ExecutionStatus): State
    requires key in s.executions
  {
    s.(executions := s.executions[key := s.executions[key].(
         status := status, meta := s.executions[key].meta.(version := s.log.version))],
       dirty := s.dirty + Wakes(s.executions[key].meta), log := Bump(s.log))
  }

  lemma ShowTo(s: State, key: Key, latest: Job, freshReads: bool)
    requires key in s.executions && s.executions[key].meta.key == key && key.kind == ExecutionKind
    requires key !in s.flights
    requires Arrived(Busy(s, key, ExecJob(s.executions[key], latest, [])), freshReads)
    requires NextStatus(s.executions[key].status, latest) != s.executions[key].status
    ensures Arrived(Shown(s, key, NextStatus(s.executions[key].status, latest)), freshReads)
  {
    var b := Busy(s, key, ExecJob(s.executions[key], latest, []));
    ArrivesOn(b, UpdateExecution(key), freshReads);
    ArrivesOn(Apply(b, UpdateExecution(key)), Finish(key), freshReads);
    Showed(s, key, latest);
  }

  lemma Showed(s: State, key: Key, latest: Job)
    requires key in s.executions && s.executions[key].meta.key == key && key.kind == ExecutionKind
    requires key !in s.flights
    requires NextStatus(s.executions[key].status, latest) != s.executions[key].status
    ensures var b := AfterUpdateExecution(Busy(s, key, ExecJob(s.executions[key], latest, [])), key);
            && key in b.flights && b.flights[key].Ended?
            && AfterFinish(b, key) == Shown(s, key, NextStatus(s.executions[key].status, latest))
  {
    var b := AfterUpdateExecution(Busy(s, key, ExecJob(s.executions[key], latest, [])), key);
    assert AfterFinish(b, key).flights == s.flights;
    assert AfterFinish(b, key).dirty == s.dirty + Wakes(s.executions[key].meta);
  }

  /** A reconcile that finds the status shown final and up to date leaves the queue. */
  lemma UnchangedTo(s: State, key: Key, x: Execution, latest: Job, freshReads: bool)
    requires key !in s.flights && Arrived(Busy(s, key, ExecJob(x, latest, [])), freshReads)
    requires NextStatus(x.status, latest) == x.status && IsTerminal(x.status.phase)
    ensures Arrived(s.(dirty := s.dirty - {key}), freshReads)
  {
    BusyOn(s, key, ExecJob(x, latest, []), UpdateExecution(key), Ended(Done), freshReads);
    FinishTo(s, key, freshReads);
  }

  lemma FinishTo(s: State, key: Key, freshReads: bool)
    requires key !in s.flights && Arrived(Busy(s, key, Ended(Done)), freshReads)
    ensures Arrived(s.(dirty := s.dirty - {key}), freshReads)
  {
    var b := Busy(s, key, Ended(Done));
    ArrivesOn(b, Finish(key), freshReads);
    assert Apply(b, Finish(key)).flights == s.flights;
  }
}
