/** Every action keeps what Back says of Jobs and their history, whatever age its Job list has. */
module BackSteps {
  import opened Objects
  import opened Decisions
  import opened Protocol
  import opened Invariants
  import opened FrontSteps

  /** A uid never given out controls no Job and has none recorded. */
  lemma FreshUid(log: Log, executions: Executions, jobs: Jobs, uid: Uid)
    requires Back(log, executions, jobs) && uid !in log.home
    ensures uid !in log.newest && Jobless(jobs, uid)
  {
    forall k | k in jobs ensures !ControlledBy(jobs[k].meta, uid) {
      assert JobOk(log.made, log.specs, k, jobs[k]) && MadeJobOk(log.home, log.newest, k, jobs[k].meta);
    }
  }

  lemma ViewGrows(a: Log, b: Log, v: Jobs)
    requires LogGrows(a, b) && ViewOk(a.made, v)
    ensures ViewOk(b.made, v)
  {
    forall k | k in v ensures Traced(b.made, k, v[k].meta) {
      assert Traced(a.made, k, v[k].meta);
    }
  }

  /** The history of Jobs as such stays the same; ids and specs may be added. */
  ghost predicate SameJobs(a: Log, b: Log) {
    LogGrows(a, b) && a.made == b.made && a.newest == b.newest && a.views == b.views
  }

  lemma BackGrows(a: Log, b: Log, executions: Executions, jobs: Jobs)
    requires SameJobs(a, b) && Back(a, executions, jobs)
    ensures Back(b, executions, jobs)
  {
    forall v | v in b.views ensures ViewOk(b.made, v) {
      ViewGrows(a, b, v);
    }
    forall k | k in jobs ensures JobOk(b.made, b.specs, k, jobs[k]) {
      assert JobOk(a.made, a.specs, k, jobs[k]);
    }
    MadeGrows(a, b);
    NewestGrows(a, b);
    BuiltGrows(a, b, executions, jobs);
  }

  lemma BuiltGrows(a: Log, b: Log, executions: Executions, jobs: Jobs)
    requires LogGrows(a, b) && Built(a.home, executions, jobs)
    ensures Built(b.home, executions, jobs)
  {
    forall k, l | k in executions && l in jobs && ControlledBy(jobs[l].meta, executions[k].meta.uid)
      ensures BuiltFor(b.home, executions[k], jobs[l].spec)
    {
      assert BuiltFor(a.home, executions[k], jobs[l].spec);
    }
  }

  lemma MadeGrows(a: Log, b: Log)
    requires SameJobs(a, b) && MadeOk(a.home, a.made, a.newest)
    ensures MadeOk(b.home, b.made, b.newest)
  {
    forall k | k in b.made ensures MadeJobOk(b.home, b.newest, k, b.made[k]) {
      assert MadeJobOk(a.home, a.newest, k, a.made[k]);
    }
  }

  lemma NewestGrows(a: Log, b: Log)
    requires SameJobs(a, b) && NewestOk(a.home, a.made, a.newest)
    ensures NewestOk(b.home, b.made, b.newest)
  {
    forall u | u in b.newest ensures Traced(b.made, b.newest[u].key, b.newest[u]) {
      assert Traced(a.made, a.newest[u].key, a.newest[u]);
    }
  }

  lemma BackFewer(log: Log, executions: Executions, jobs: Jobs, smaller: Executions)
    requires Back(log, executions, jobs) && Subset(executions, smaller)
    ensures Back(log, smaller, jobs)
  {
    FewerBuilt(log.home, executions, jobs, smaller);
    FewerKept(log.newest, executions, jobs, smaller);
  }

  lemma FewerBuilt(home: map<Uid, Key>, executions: Executions, jobs: Jobs, smaller: Executions)
    requires Built(home, executions, jobs) && Subset(executions, smaller)
    ensures Built(home, smaller, jobs)
  {
    forall k, l | k in smaller && l in jobs && ControlledBy(jobs[l].meta, smaller[k].meta.uid)
      ensures BuiltFor(home, smaller[k], jobs[l].spec)
    {
      assert SameChild(executions[k], smaller[k]);
      assert BuiltFor(home, executions[k], jobs[l].spec);
    }
  }

  lemma FewerKept(newest: map<Uid, Meta>, executions: Executions, jobs: Jobs, smaller: Executions)
    requires NewestKept(newest, executions, jobs) && Subset(executions, smaller)
    ensures NewestKept(newest, smaller, jobs)
  {
    forall k | k in smaller && smaller[k].meta.uid in newest ensures HasJob(newest, jobs, smaller[k].meta.uid) {
      assert SameChild(executions[k], smaller[k]);
      assert HasJob(newest, jobs, executions[k].meta.uid);
    }
  }

  lemma BackMore(log: Log, executions: Executions, jobs: Jobs, e: Execution)
    requires Back(log, executions, jobs) && e.meta.uid !in log.newest && Jobless(jobs, e.meta.uid)
    ensures Back(log, executions[e.meta.key := e], jobs)
  {
    BuiltMore(log.home, executions, jobs, e);
  }

  lemma BuiltMore(home: map<Uid, Key>, executions: Executions, jobs: Jobs, e: Execution)
    requires Built(home, executions, jobs) && Jobless(jobs, e.meta.uid)
    ensures Built(home, executions[e.meta.key := e], jobs)
  {
    var more := executions[e.meta.key := e];
    forall k, l | k in more && l in jobs && ControlledBy(jobs[l].meta, more[k].meta.uid)
      ensures BuiltFor(home, more[k], jobs[l].spec)
    {
      assert k != e.meta.key;
      assert BuiltFor(home, executions[k], jobs[l].spec);
    }
  }

  /** Jobs may go, or change in status. */
  ghost predicate Reduced(jobs: Jobs, after: Jobs) {
    forall k :: k in after ==> k in jobs && after[k].meta == jobs[k].meta && after[k].spec == jobs[k].spec
  }

  lemma ReducedOk(made: map<Key, Meta>, specs: map<(Uid, int), OwnerSpec>, jobs: Jobs, after: Jobs)
    requires Reduced(jobs, after) && JobsOk(made, specs, jobs)
    ensures JobsOk(made, specs, after) && ViewOk(made, after)
  {
    forall k | k in after ensures JobOk(made, specs, k, after[k]) {
      assert JobOk(made, specs, k, jobs[k]);
    }
    forall k | k in after ensures Traced(made, k, after[k].meta) {
      assert JobOk(made, specs, k, after[k]);
    }
  }

  lemma ReducedBuilt(home: map<Uid, Key>, executions: Executions, jobs: Jobs, after: Jobs)
    requires Reduced(jobs, after) && Built(home, executions, jobs)
    ensures Built(home, executions, after)
  {
    forall k, l | k in executions && l in after && ControlledBy(after[l].meta, executions[k].meta.uid)
      ensures BuiltFor(home, executions[k], after[l].spec)
    {
      assert BuiltFor(home, executions[k], jobs[l].spec);
    }
  }

  lemma BackJobs(log: Log, executions: Executions, jobs: Jobs, after: Jobs)
    requires Back(log, executions, jobs) && NewestKept(log.newest, executions, after) && Reduced(jobs, after)
    ensures Back(log.(views := log.views + {after}), executions, after)
  {
    ReducedOk(log.made, log.specs, jobs, after);
    ReducedBuilt(log.home, executions, jobs, after);
  }

  lemma JobProgressBack(s: State, key: Key, status: JobStatus)
    requires Back(s.log, s.executions, s.jobs) && CanProgress(s, key, status)
    ensures var t := PutJobs(s, s.jobs[key := s.jobs[key].(status := status)], Wakes(s.jobs[key].meta));
            Back(t.log, t.executions, t.jobs)
  {
    ProgressBack(s.log, s.executions, s.jobs, key, status);
  }

  lemma ProgressBack(log: Log, executions: Executions, jobs: Jobs, key: Key, status: JobStatus)
    requires Back(log, executions, jobs) && key in jobs
    ensures var after := jobs[key := jobs[key].(status := status)];
            Back(log.(views := log.views + {after}), executions, after)
  {
    var after := jobs[key := jobs[key].(status := status)];
    ProgressKeeps(log.newest, executions, jobs, key, status);
    ProgressReduces(jobs, key, status);
    BackJobs(log, executions, jobs, after);
  }

  lemma ProgressReduces(jobs: Jobs, key: Key, status: JobStatus)
    requires key in jobs
    ensures Reduced(jobs, jobs[key := jobs[key].(status := status)])
  {
  }

  lemma ProgressKeeps(newest: map<Uid, Meta>, executions: Executions, jobs: Jobs, key: Key, status: JobStatus)
    requires NewestKept(newest, executions, jobs) && key in jobs
    ensures NewestKept(newest, executions, jobs[key := jobs[key].(status := status)])
  {
    var after := jobs[key := jobs[key].(status := status)];
    forall k | k in executions && executions[k].meta.uid in newest
      ensures HasJob(newest, after, executions[k].meta.uid) {
      assert HasJob(newest, jobs, executions[k].meta.uid);
    }
  }

  lemma DeleteOrphanBack(s: State, key: Key)
    requires Back(s.log, s.executions, s.jobs) && CanCollect(s, key)
    ensures var t := PutJobs(s, s.jobs - {key}, Wakes(s.jobs[key].meta));
            Back(t.log, t.executions, t.jobs)
  {
    OrphanKeeps(s.log, s.executions, s.jobs, key);
    BackJobs(s.log, s.executions, s.jobs, s.jobs - {key});
  }

  lemma OrphanKeeps(log: Log, executions: Executions, jobs: Jobs, key: Key)
    requires NewestKept(log.newest, executions, jobs) && NewestOk(log.home, log.made, log.newest) && key in jobs
    requires jobs[key].meta.controller.Some? ==> !Live(executions, jobs[key].meta.controller.value.uid)
    ensures NewestKept(log.newest, executions, jobs - {key})
  {
    forall k | k in executions && executions[k].meta.uid in log.newest
      ensures HasJob(log.newest, jobs - {key}, executions[k].meta.uid) {
      assert Live(executions, executions[k].meta.uid);
      assert HasJob(log.newest, jobs, executions[k].meta.uid);
      assert ControlledBy(log.newest[executions[k].meta.uid], executions[k].meta.uid);
    }
  }

  /** A Job that is older than another of its execution is not the newest of any. */
  lemma OlderNotNewest(log: Log, x: Execution, latest: Job, j: Job)
    requires MadeOk(log.home, log.made, log.newest) && NewestOk(log.home, log.made, log.newest)
    requires SelectionOk(log.made, x, latest, []) && StaleOk(log.made, x, latest, j)
    ensures forall u :: u in log.newest ==> log.newest[u].key != j.meta.key
  {
    assert MadeJobOk(log.home, log.newest, latest.meta.key, latest.meta);
    forall u | u in log.newest ensures log.newest[u].key != j.meta.key {
      assert Traced(log.made, log.newest[u].key, log.newest[u]);
    }
  }

  lemma PruneKeeps(log: Log, owners: Owners, executions: Executions, key: Key, f: Flight)
    requires f.ExecJob? && f.stale != [] && FlightOk(log, owners, executions, key, f)
    requires MadeOk(log.home, log.made, log.newest) && NewestOk(log.home, log.made, log.newest)
    ensures forall u :: u in log.newest ==> log.newest[u].key != f.stale[0].meta.key
  {
    assert StaleOk(log.made, f.exec, f.latest, f.stale[0]);
    OlderNotNewest(log, f.exec, f.latest, f.stale[0]);
  }

  lemma PruneJobBack(s: State, key: Key, deleted: bool)
    requires Front(s) && Back(s.log, s.executions, s.jobs) && CanPrune(s, key)
    ensures var t := AfterPruneJob(s, key, deleted);
            Back(t.log, t.executions, t.jobs)
  {
    var f := s.flights[key];
    assert FlightOk(s.log, s.owners, s.executions, key, f);
    PruneKeeps(s.log, s.owners, s.executions, key, f);
    var name := f.stale[0].meta.key;
    if deleted && name in s.jobs {
      NewestSpared(s.log, s.executions, s.jobs, name);
      BackJobs(s.log, s.executions, s.jobs, s.jobs - {name});
    }
  }

  lemma NewestSpared(log: Log, executions: Executions, jobs: Jobs, key: Key)
    requires NewestKept(log.newest, executions, jobs)
    requires forall u :: u in log.newest ==> log.newest[u].key != key
    ensures NewestKept(log.newest, executions, jobs - {key})
  {
    forall k | k in executions && executions[k].meta.uid in log.newest
      ensures HasJob(log.newest, jobs - {key}, executions[k].meta.uid)
    {
      assert HasJob(log.newest, jobs, executions[k].meta.uid);
    }
  }

  function LogJob(log: Log, jobs: Jobs, j: Job, u: Uid): Log {
    log.(home := log.home[j.meta.uid := j.meta.key], made := log.made[j.meta.key := j.meta],
         newest := log.newest[u := j.meta], views := log.views + {jobs[j.meta.key := j]})
  }

  /** A new Job: a new name and uid, later than its siblings, for the execution the copy x shows. */
  ghost predicate NewFor(log: Log, executions: Executions, key: Key, x: Execution, j: Job) {
    && j.meta.key.kind == JobKind && j.meta.uid !in log.home && !Used(log.home, j.meta.key)
    && ControlledBy(j.meta, x.meta.uid) && j.meta.controller.value.kind == ExecutionKind
    && ControllerKey(j.meta) == key && FromModule(log.specs, j.spec) && BuiltFor(log.home, x, j.spec)
    && (x.meta.uid in log.newest ==> log.newest[x.meta.uid].created < j.meta.created)
  }

  lemma NewNameUnmade(log: Log, key: Key)
    requires MadeOk(log.home, log.made, log.newest) && NewestOk(log.home, log.made, log.newest) && !Used(log.home, key)
    ensures key !in log.made
    ensures forall v :: v in log.newest ==> log.newest[v].key != key
  {
    assert forall k :: k in log.made ==> MadeJobOk(log.home, log.newest, k, log.made[k]);
  }

  lemma AddJob(log: Log, executions: Executions, jobs: Jobs, key: Key, x: Execution, j: Job)
    requires Back(log, executions, jobs) && ExecutionsOk(log, executions) && ExecCopyOk(log, executions, key, x)
    requires NewFor(log, executions, key, x, j)
    ensures LogGrows(log, LogJob(log, jobs, j, x.meta.uid))
    ensures Back(LogJob(log, jobs, j, x.meta.uid), executions, jobs[j.meta.key := j])
  {
    var log' := LogJob(log, jobs, j, x.meta.uid);
    NewNameUnmade(log, j.meta.key);
    assert LogGrows(log, log');
    AddJobBack(log, log', executions, jobs, key, x, j);
  }

  lemma AddJobBack(log: Log, log': Log, executions: Executions, jobs: Jobs, key: Key, x: Execution, j: Job)
    requires Back(log, executions, jobs) && ExecutionsOk(log, executions) && ExecCopyOk(log, executions, key, x)
    requires NewFor(log, executions, key, x, j) && j.meta.key !in log.made
    requires log' == LogJob(log, jobs, j, x.meta.uid) && LogGrows(log, log')
    requires forall v :: v in log.newest ==> log.newest[v].key != j.meta.key
    ensures Back(log', executions, jobs[j.meta.key := j])
  {
    AddMade(log, j.meta, x.meta.uid);
    AddJobOk(log, log', jobs, j);
    AddJobViews(log, log', jobs, j);
    AddJobKept(log, executions, jobs, j, x.meta.uid);
    BuiltWithJob(log, log', executions, jobs, key, x, j);
  }

  lemma BuiltWithJob(log: Log, log': Log, executions: Executions, jobs: Jobs, key: Key, x: Execution, j: Job)
    requires Built(log.home, executions, jobs) && ExecutionsOk(log, executions) && ExecCopyOk(log, executions, key, x)
    requires NewFor(log, executions, key, x, j) && LogGrows(log, log')
    ensures Built(log'.home, executions, jobs[j.meta.key := j])
  {
    BuiltGrows(log, log', executions, jobs);
    forall k | k in executions && executions[k].meta.uid == x.meta.uid ensures k == key {
      assert ExecOk(log, k, executions[k]);
    }
    AddJobBuilt(log'.home, executions, jobs, j, x, key);
  }

  lemma NewJobFits(s: State, key: Key, uid: Uid, name: string, defaultImage: string)
    requires Front(s) && CanCreateJob(s, key, uid, name)
    ensures var j := NewJob(s.flights[key].exec, s.flights[key].mod, defaultImage, uid, name, s.now);
            NewFor(s.log, s.executions, key, s.flights[key].exec, j)
    ensures ExecCopyOk(s.log, s.executions, key, s.flights[key].exec)
  {
    assert FlightOk(s.log, s.owners, s.executions, key, s.flights[key]);
  }

  lemma CreateJobBack(s: State, key: Key, uid: Uid, name: string, defaultImage: string)
    requires Front(s) && Back(s.log, s.executions, s.jobs) && CanCreateJob(s, key, uid, name)
    ensures var t := AfterCreateJob(s, key, uid, name, defaultImage);
            LogGrows(s.log, t.log) && Back(t.log, t.executions, t.jobs)
  {
    var x := s.flights[key].exec;
    var j := NewJob(x, s.flights[key].mod, defaultImage, uid, name, s.now);
    NewJobFits(s, key, uid, name, defaultImage);
    AddJob(s.log, s.executions, s.jobs, key, x, j);
  }

  lemma AddMade(log: Log, j: Meta, u: Uid)
    requires MadeOk(log.home, log.made, log.newest) && NewestOk(log.home, log.made, log.newest)
    requires j.key.kind == JobKind && j.uid !in log.home && j.key !in log.made
    requires ControlledBy(j, u) && j.controller.value.kind == ExecutionKind && Home(log.home, u, ControllerKey(j))
    requires u in log.newest ==> log.newest[u].created < j.created
    ensures var home, made, newest := log.home[j.uid := j.key], log.made[j.key := j], log.newest[u := j];
            MadeOk(home, made, newest) && NewestOk(home, made, newest)
  {
    AddMadeOk(log, j, u);
    AddNewestOk(log, j, u);
  }

  lemma AddMadeOk(log: Log, j: Meta, u: Uid)
    requires MadeOk(log.home, log.made, log.newest)
    requires j.key.kind == JobKind && j.uid !in log.home && j.key !in log.made
    requires ControlledBy(j, u) && j.controller.value.kind == ExecutionKind && Home(log.home, u, ControllerKey(j))
    requires u in log.newest ==> log.newest[u].created < j.created
    ensures MadeOk(log.home[j.uid := j.key], log.made[j.key := j], log.newest[u := j])
  {
    var home, made, newest := log.home[j.uid := j.key], log.made[j.key := j], log.newest[u := j];
    forall k | k in made ensures MadeJobOk(home, newest, k, made[k]) {
      if k != j.key {
        assert MadeJobOk(log.home, log.newest, k, log.made[k]);
      }
    }
  }

  lemma AddNewestOk(log: Log, j: Meta, u: Uid)
    requires NewestOk(log.home, log.made, log.newest)
    requires j.uid !in log.home && j.key !in log.made && ControlledBy(j, u) && u in log.home
    ensures NewestOk(log.home[j.uid := j.key], log.made[j.key := j], log.newest[u := j])
  {
    var home, made, newest := log.home[j.uid := j.key], log.made[j.key := j], log.newest[u := j];
    forall v | v in newest ensures v in home && ControlledBy(newest[v], v) && Traced(made, newest[v].key, newest[v]) {
      if v != u {
        assert Traced(log.made, log.newest[v].key, log.newest[v]);
      }
    }
  }

  lemma AddJobOk(a: Log, b: Log, jobs: Jobs, j: Job)
    requires LogGrows(a, b) && JobsOk(a.made, a.specs, jobs)
    requires Traced(b.made, j.meta.key, j.meta) && FromModule(b.specs, j.spec)
    ensures JobsOk(b.made, b.specs, jobs[j.meta.key := j])
  {
    var more := jobs[j.meta.key := j];
    forall k | k in more ensures JobOk(b.made, b.specs, k, more[k]) {
      if k != j.meta.key {
        assert JobOk(a.made, a.specs, k, jobs[k]);
      }
    }
  }

  lemma AddJobViews(a: Log, b: Log, jobs: Jobs, j: Job)
    requires LogGrows(a, b) && ViewsOk(a.made, a.views) && jobs in a.views
    requires Traced(b.made, j.meta.key, j.meta) && b.views == a.views + {jobs[j.meta.key := j]}
    ensures ViewsOk(b.made, b.views)
  {
    ViewGrows(a, b, jobs);
    forall v | v in b.views ensures ViewOk(b.made, v) {
      if v in a.views {
        ViewGrows(a, b, v);
      }
    }
  }

  lemma AddJobKept(log: Log, executions: Executions, jobs: Jobs, j: Job, u: Uid)
    requires NewestKept(log.newest, executions, jobs)
    requires forall v :: v in log.newest ==> log.newest[v].key != j.meta.key
    ensures NewestKept(log.newest[u := j.meta], executions, jobs[j.meta.key := j])
  {
    forall k | k in executions && executions[k].meta.uid in log.newest[u := j.meta]
      ensures HasJob(log.newest[u := j.meta], jobs[j.meta.key := j], executions[k].meta.uid)
    {
      if executions[k].meta.uid != u {
        assert HasJob(log.newest, jobs, executions[k].meta.uid);
      }
    }
  }

  lemma AddJobBuilt(home: map<Uid, Key>, executions: Executions, jobs: Jobs, j: Job, x: Execution, key: Key)
    requires Built(home, executions, jobs) && ControlledBy(j.meta, x.meta.uid) && BuiltFor(home, x, j.spec)
    requires forall k :: k in executions && executions[k].meta.uid == x.meta.uid ==> k == key
    requires StoredAs(executions, key, x.meta.uid) ==> SameButVersion(executions[key], x)
    ensures Built(home, executions, jobs[j.meta.key := j])
  {
    var more := jobs[j.meta.key := j];
    forall k, l | k in executions && l in more && ControlledBy(more[l].meta, executions[k].meta.uid)
      ensures BuiltFor(home, executions[k], more[l].spec)
    {
      if l == j.meta.key {
        assert SameButVersion(executions[k], x);
      } else {
        assert BuiltFor(home, executions[k], jobs[l].spec);
      }
    }
  }
}
