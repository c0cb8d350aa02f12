/** Base over whole runs. */
module BaseRuns {
  import opened Objects
  import opened Decisions
  import opened Protocol
  import opened Invariants
  import opened FrontSteps
  import opened BackSteps
  import opened BaseSteps

  predicate ByUser(a: Action) {
    a.CreateOwner? || a.EditSpec? || a.TouchOwner? || a.DeleteOwner? || a.CreateLoose? || a.TouchExecution?
        || a.DeleteExecution?
  }

  predicate ByEnvironment(a: Action) {
    a.JobProgress? || a.DeleteOrphan? || a.Tick? || a.Requeue? || a.Restart? || a.Pop? || a.Fail? || a.Finish?
  }

  predicate ByOwnerReconcile(a: Action) {
    a.GetOwner? || a.ListExecutions? || a.CreateExecution? || a.UpdateOwner? || a.RestOwner?
  }

  predicate ByExecutionReconcile(a: Action) {
    a.GetExecution? || a.ListJobs? || a.ReadModule? || a.CreateJob? || a.PruneJob? || a.UpdateExecution?
  }

  /** The steps of the execution reconciler that deal with the Jobs it found, or makes one. */
  predicate OnJobs(a: Action) {
    a.ListJobs? || a.CreateJob? || a.PruneJob?
  }

  lemma UserFront(s: State, a: Action)
    requires Base(s) && Enabled(s, a) && ByUser(a)
    ensures Front(Apply(s, a))
  {
    if a.CreateOwner? || a.EditSpec? || a.DeleteOwner? {
      OwnerUserFront(s, a);
    } else if a.TouchOwner? || a.TouchExecution? {
      TouchFront(s, a);
    } else {
      LooseFront(s, a);
    }
  }

  lemma OwnerUserFront(s: State, a: Action)
    requires Front(s) && SpecsOk(s.log, s.owners) && Enabled(s, a) && (a.CreateOwner? || a.EditSpec? || a.DeleteOwner?)
    ensures Front(Apply(s, a))
  {
    if a.CreateOwner? {
      CreateOwnerFront(s, a.key, a.uid, a.spec);
    } else if a.EditSpec? {
      EditSpecFront(s, a.key, a.spec);
    } else {
      DeleteOwnerFront(s, a.key);
    }
  }

  lemma TouchFront(s: State, a: Action)
    requires Front(s) && Enabled(s, a) && (a.TouchOwner? || a.TouchExecution?)
    ensures Front(Apply(s, a))
  {
    if a.TouchOwner? {
      TouchOwnerFront(s, a.key);
    } else {
      TouchExecutionFront(s, a.key);
    }
  }

  lemma LooseFront(s: State, a: Action)
    requires Front(s) && Enabled(s, a) && (a.CreateLoose? || a.DeleteExecution?)
    ensures Front(Apply(s, a))
  {
    if a.CreateLoose? {
      CreateLooseFront(s, a.key, a.uid, a.execSpec, a.annotations);
    } else {
      DeleteExecutionFront(s, a.key);
    }
  }

  lemma EnvironmentFront(s: State, a: Action)
    requires Base(s) && Enabled(s, a) && ByEnvironment(a)
    ensures Front(Apply(s, a))
  {
    if a.JobProgress? || a.DeleteOrphan? {
      ClusterFront(s, a);
    } else if a.Restart? || a.Fail? {
      AbortFront(s, a);
    } else if a.Pop? || a.Finish? {
      QueueFront(s, a);
    } else {
      IdleFront(s, a);
    }
  }

  lemma ClusterFront(s: State, a: Action)
    requires Front(s) && Enabled(s, a) && (a.JobProgress? || a.DeleteOrphan?)
    ensures Front(Apply(s, a))
  {
    var woken := Wakes(s.jobs[a.key].meta);
    if a.JobProgress? {
      JobsMove(s, s.jobs[a.key := s.jobs[a.key].(status := a.status)], woken);
    } else {
      JobsMove(s, s.jobs - {a.key}, woken);
    }
  }

  lemma IdleFront(s: State, a: Action)
    requires Front(s) && Enabled(s, a) && (a.Tick? || a.Requeue?)
    ensures Front(Apply(s, a))
  {
    if a.Tick? {
      TickFront(s);
    } else {
      MoreDirty(s, s.dirty + {a.key});
    }
  }

  lemma AbortFront(s: State, a: Action)
    requires Front(s) && Enabled(s, a) && (a.Restart? || a.Fail?)
    ensures Front(Apply(s, a))
  {
    if a.Restart? {
      RestartFront(s);
    } else {
      FailFront(s, a.key);
    }
  }

  lemma QueueFront(s: State, a: Action)
    requires Front(s) && Enabled(s, a) && (a.Pop? || a.Finish?)
    ensures Front(Apply(s, a))
  {
    if a.Pop? {
      PopFront(s, a.key);
    } else {
      FinishFront(s, a.key);
    }
  }

  lemma OwnerReconcileFront(s: State, a: Action)
    requires Front(s) && Enabled(s, a) && ByOwnerReconcile(a)
    ensures Front(Apply(s, a))
  {
    if a.CreateExecution? || a.UpdateOwner? {
      OwnerWriteFront(s, a);
    } else {
      OwnerReadFront(s, a);
    }
  }

  lemma OwnerWriteFront(s: State, a: Action)
    requires Front(s) && Enabled(s, a) && (a.CreateExecution? || a.UpdateOwner?)
    ensures Front(Apply(s, a))
  {
    if a.CreateExecution? {
      CreateExecutionFront(s, a.key, a.uid, a.name);
    } else {
      UpdateOwnerFront(s, a.key);
    }
  }

  lemma OwnerReadFront(s: State, a: Action)
    requires Front(s) && Enabled(s, a) && (a.GetOwner? || a.ListExecutions? || a.RestOwner?)
    ensures Front(Apply(s, a))
  {
    if a.GetOwner? {
      GetOwnerFront(s, a.key);
    } else if a.ListExecutions? {
      ListExecutionsFront(s, a.key, a.executions);
    } else {
      RestOwnerFront(s, a.key);
    }
  }

  lemma ExecutionReconcileFront(s: State, a: Action)
    requires Base(s) && Enabled(s, a) && ByExecutionReconcile(a)
    ensures Front(Apply(s, a))
  {
    if a.ListJobs? || a.CreateJob? {
      JobFront(s, a);
    } else if a.ReadModule? || a.GetExecution? {
      GetFront(s, a);
    } else {
      PlainFront(s, a);
    }
  }

  lemma JobFront(s: State, a: Action)
    requires Front(s) && BackAt(s) && Enabled(s, a) && (a.ListJobs? || a.CreateJob?)
    ensures Front(Apply(s, a))
  {
    if a.ListJobs? {
      ListJobsFront(s, a.key, a.view, a.jobs);
    } else {
      CreateJobFront(s, a.key, a.uid, a.name, a.defaultImage);
    }
  }

  lemma GetFront(s: State, a: Action)
    requires Base(s) && Enabled(s, a) && (a.GetExecution? || a.ReadModule?)
    ensures Front(Apply(s, a))
  {
    if a.GetExecution? {
      GetExecutionFront(s, a.key);
    } else {
      ReadModuleFront(s, a.key);
    }
  }

  lemma PlainFront(s: State, a: Action)
    requires Front(s) && Enabled(s, a) && (a.PruneJob? || a.UpdateExecution?)
    ensures Front(Apply(s, a))
  {
    if a.PruneJob? {
      PruneJobFront(s, a.key, a.deleted);
    } else {
      UpdateExecutionFront(s, a.key);
    }
  }

  lemma TouchOwnerFront(s: State, key: Key)
    requires Front(s) && key in s.owners
    ensures Front(PutOwner(s, s.owners[key]))
  {
    assert OwnerOk(s.log, key, s.owners[key]) && NameOk(s.log, s.executions, s.owners[key]);
    PutOwnerFront(s, s.owners[key]);
  }

  lemma TouchExecutionFront(s: State, key: Key)
    requires Front(s) && key in s.executions
    ensures Front(PutExecution(s, s.executions[key]))
  {
    assert ExecOk(s.log, key, s.executions[key]);
    PutExecutionFront(s, s.executions[key]);
  }

  lemma JobsMove(s: State, jobs: Jobs, woken: set<Key>)
    requires Front(s)
    ensures Front(PutJobs(s, jobs, woken))
  {
    Prepare(s, woken, s.log.(views := s.log.views + {jobs}));
  }

  ghost predicate BackAt(s: State) {
    Back(s.log, s.executions, s.jobs)
  }

  lemma CreateLooseBack(s: State, key: Key, uid: Uid, spec: ExecutionSpec, annotations: map<string, string>)
    requires BackAt(s) && CanCreateLoose(s, key, uid)
    ensures BackAt(AfterCreateLoose(s, key, uid, spec, annotations))
  {
    var t := AfterCreateLoose(s, key, uid, spec, annotations);
    FreshUid(s.log, s.executions, s.jobs, uid);
    BackMore(s.log, s.executions, s.jobs, t.executions[key]);
    BackGrows(s.log, t.log, t.executions, s.jobs);
  }

  lemma CreateExecutionBack(s: State, key: Key, uid: Uid, name: string)
    requires BackAt(s) && CanCreateExecution(s, key, uid, name)
    ensures BackAt(AfterCreateExecution(s, key, uid, name))
  {
    var t := AfterCreateExecution(s, key, uid, name);
    FreshUid(s.log, s.executions, s.jobs, uid);
    BackMore(s.log, s.executions, s.jobs, NewExecution(s.flights[key].owner, uid, name, s.now, s.log.version));
    BackGrows(s.log, t.log, t.executions, s.jobs);
  }

  lemma PutExecutionBack(s: State, e: Execution)
    requires BackAt(s) && e.meta.key in s.executions && SameChild(s.executions[e.meta.key], e)
    ensures BackAt(PutExecution(s, e))
  {
    var t := PutExecution(s, e);
    BackFewer(s.log, s.executions, s.jobs, t.executions);
    BackGrows(s.log, t.log, t.executions, s.jobs);
  }

  lemma EditSpecBack(s: State, key: Key, spec: OwnerSpec)
    requires BackAt(s) && SpecsOk(s.log, s.owners) && CanEditSpec(s, key, spec)
    ensures BackAt(AfterEditSpec(s, key, spec))
  {
    BackGrows(s.log, AfterEditSpec(s, key, spec).log, s.executions, s.jobs);
  }

  lemma CreateOwnerBack(s: State, key: Key, uid: Uid, spec: OwnerSpec)
    requires BackAt(s) && SpecsOk(s.log, s.owners) && CanCreateOwner(s, key, uid, spec)
    ensures BackAt(AfterCreateOwner(s, key, uid, spec))
  {
    BackGrows(s.log, AfterCreateOwner(s, key, uid, spec).log, s.executions, s.jobs);
  }

  /** The actions that leave executions, Jobs and the history of Jobs alone. */
  predicate LeavesBack(a: Action) {
    a.DeleteOwner? || a.Tick? || a.Requeue? || a.Restart? || a.Pop? || a.Fail? || a.Finish? || a.GetOwner?
    || a.ListExecutions? || a.RestOwner? || a.GetExecution? || a.ListJobs? || a.ReadModule?
  }

  lemma BackUntouched(s: State, a: Action)
    requires Enabled(s, a) && LeavesBack(a)
    ensures SameBack(s, Apply(s, a))
  {
    if ByUser(a) || ByEnvironment(a) {
      OthersLeaveBack(s, a);
    } else {
      ReadsLeaveBack(s, a);
    }
  }

  ghost predicate SameBack(s: State, t: State) {
    t.log == s.log && t.executions == s.executions && t.jobs == s.jobs
  }

  lemma OthersLeaveBack(s: State, a: Action)
    requires Enabled(s, a) && LeavesBack(a) && (ByUser(a) || ByEnvironment(a))
    ensures SameBack(s, Apply(s, a))
  {
  }

  lemma ReadsLeaveBack(s: State, a: Action)
    requires Enabled(s, a) && LeavesBack(a) && (ByOwnerReconcile(a) || ByExecutionReconcile(a))
    ensures SameBack(s, Apply(s, a))
  {
    if a.ListJobs? {
      ListLeavesBack(s, a.key, a.jobs);
    }
  }

  lemma ListLeavesBack(s: State, key: Key, items: seq<Job>)
    requires key in s.flights && s.flights[key].ExecGot?
    ensures SameBack(s, AfterListJobs(s, key, items))
  {
  }

  lemma NewOwnerBack(s: State, a: Action)
    requires BackAt(s) && SpecsOk(s.log, s.owners) && Enabled(s, a) && (a.CreateOwner? || a.EditSpec?)
    ensures BackAt(Apply(s, a))
  {
    if a.CreateOwner? {
      CreateOwnerBack(s, a.key, a.uid, a.spec);
    } else {
      EditSpecBack(s, a.key, a.spec);
    }
  }

  lemma OldOwnerTouches(s: State, a: Action)
    requires Enabled(s, a) && (a.TouchOwner? || a.UpdateOwner?)
    ensures Apply(s, a).executions == s.executions && Apply(s, a).jobs == s.jobs
    ensures Apply(s, a).log == s.log || Apply(s, a).log == Bump(s.log)
  {
  }

  lemma BackBumps(log: Log, executions: Executions, jobs: Jobs)
    requires Back(log, executions, jobs)
    ensures Back(Bump(log), executions, jobs)
  {
    BackGrows(log, Bump(log), executions, jobs);
  }

  lemma OldOwnerBack(s: State, a: Action)
    requires BackAt(s) && Enabled(s, a) && (a.TouchOwner? || a.UpdateOwner?)
    ensures BackAt(Apply(s, a))
  {
    OldOwnerTouches(s, a);
    BackBumps(s.log, s.executions, s.jobs);
  }

  predicate OnExecution(a: Action) {
    a.CreateLoose? || a.TouchExecution? || a.DeleteExecution? || a.CreateExecution? || a.UpdateExecution?
  }

  lemma ExecutionBack(s: State, a: Action)
    requires Front(s) && BackAt(s) && Enabled(s, a) && OnExecution(a)
    ensures BackAt(Apply(s, a))
  {
    if a.CreateLoose? || a.DeleteExecution? || a.CreateExecution? {
      NewExecutionBack(s, a);
    } else if a.TouchExecution? {
      assert ExecOk(s.log, a.key, s.executions[a.key]);
      PutExecutionBack(s, s.executions[a.key]);
    } else {
      ExecutionHeld(s, a.key);
      UpdateExecutionBack(s, a.key, s.flights[a.key].exec);
    }
  }

  lemma NewExecutionBack(s: State, a: Action)
    requires BackAt(s) && Enabled(s, a) && (a.CreateLoose? || a.DeleteExecution? || a.CreateExecution?)
    ensures BackAt(Apply(s, a))
  {
    if a.CreateLoose? {
      CreateLooseBack(s, a.key, a.uid, a.execSpec, a.annotations);
    } else if a.CreateExecution? {
      CreateExecutionBack(s, a.key, a.uid, a.name);
    } else {
      BackFewer(s.log, s.executions, s.jobs, s.executions - {a.key});
    }
  }

  lemma ExecutionHeld(s: State, key: Key)
    requires Front(s) && key in s.flights && s.flights[key].ExecJob?
    ensures var x := s.flights[key].exec;
            x.meta.key == key && (ExecCurrent(s, x) ==> s.executions[key] == x)
  {
    assert FlightOk(s.log, s.owners, s.executions, key, s.flights[key]);
  }

  lemma UpdateExecutionBack(s: State, key: Key, x: Execution)
    requires BackAt(s) && CanUpdateExecution(s, key) && s.flights[key].exec == x && x.meta.key == key
    requires ExecCurrent(s, x) ==> s.executions[key] == x
    ensures BackAt(AfterUpdateExecution(s, key))
  {
    if ExecCurrent(s, x) {
      PutExecutionBack(s, x.(status := NextStatus(x.status, s.flights[key].latest)));
    }
  }

  lemma BackStep(s: State, a: Action)
    requires Base(s) && Enabled(s, a)
    ensures BackAt(Apply(s, a))
  {
    if LeavesBack(a) {
      BackUntouched(s, a);
    } else if OnExecution(a) {
      ExecutionBack(s, a);
    } else if a.CreateOwner? || a.EditSpec? {
      NewOwnerBack(s, a);
    } else if a.TouchOwner? || a.UpdateOwner? {
      OldOwnerBack(s, a);
    } else if a.JobProgress? || a.DeleteOrphan? {
      ClusterBack(s, a);
    } else if a.CreateJob? {
      NewJobBack(s, a.key, a.uid, a.name, a.defaultImage);
    } else {
      PruneJobBack(s, a.key, a.deleted);
    }
  }

  lemma ClusterBack(s: State, a: Action)
    requires BackAt(s) && Enabled(s, a) && (a.JobProgress? || a.DeleteOrphan?)
    ensures BackAt(Apply(s, a))
  {
    if a.JobProgress? {
      JobProgressBack(s, a.key, a.status);
    } else {
      DeleteOrphanBack(s, a.key);
    }
  }

  lemma NewJobBack(s: State, key: Key, uid: Uid, name: string, defaultImage: string)
    requires Front(s) && BackAt(s) && CanCreateJob(s, key, uid, name)
    ensures BackAt(AfterCreateJob(s, key, uid, name, defaultImage))
  {
    CreateJobBack(s, key, uid, name, defaultImage);
  }

  // ---------- specs ----------

  lemma NewSpecOk(s: State, o: Owner, log: Log)
    requires SpecsOk(s.log, s.owners) && OwnersOk(s.log, s.owners)
    requires log.specs == s.log.specs[(o.meta.uid, o.meta.generation) := o.spec]
    requires log.home == s.log.home[o.meta.uid := o.meta.key]
    requires o.meta.uid !in s.log.home || (o.meta.key in s.owners && s.owners[o.meta.key].meta.uid == o.meta.uid
               && s.owners[o.meta.key].meta.generation <= o.meta.generation)
    ensures SpecsOk(log, s.owners[o.meta.key := o])
  {
    assert forall k :: k in s.owners ==> OwnerOk(s.log, k, s.owners[k]);
  }

  lemma NewOwnerSpec(s: State, key: Key, uid: Uid, spec: OwnerSpec)
    requires Front(s) && SpecsOk(s.log, s.owners) && CanCreateOwner(s, key, uid, spec)
    ensures var t := AfterCreateOwner(s, key, uid, spec); SpecsOk(t.log, t.owners)
  {
    var t := AfterCreateOwner(s, key, uid, spec);
    NewSpecOk(s, t.owners[key], t.log);
  }

  lemma NextOwnerSpec(s: State, key: Key, spec: OwnerSpec)
    requires Front(s) && SpecsOk(s.log, s.owners) && CanEditSpec(s, key, spec)
    ensures var t := AfterEditSpec(s, key, spec); SpecsOk(t.log, t.owners)
  {
    var t := AfterEditSpec(s, key, spec);
    assert OwnerOk(s.log, key, s.owners[key]);
    assert s.log.home == s.log.home[s.owners[key].meta.uid := key];
    NewSpecOk(s, t.owners[key], t.log);
  }

  lemma NewSpecStep(s: State, a: Action)
    requires Front(s) && SpecsOk(s.log, s.owners) && Enabled(s, a) && (a.CreateOwner? || a.EditSpec?)
    ensures SpecsOk(Apply(s, a).log, Apply(s, a).owners)
  {
    if a.CreateOwner? {
      NewOwnerSpec(s, a.key, a.uid, a.spec);
    } else {
      NextOwnerSpec(s, a.key, a.spec);
    }
  }

  /** Owners may go, or change in status and version. */
  ghost predicate SameOwners(owners: Owners, after: Owners) {
    forall k :: k in after ==> (k in owners && after[k].meta.uid == owners[k].meta.uid
                                && after[k].meta.generation == owners[k].meta.generation)
  }

  lemma SpecsKept(a: Log, b: Log, owners: Owners, after: Owners)
    requires SpecsOk(a, owners) && a.specs == b.specs && SameOwners(owners, after)
    requires forall u :: u in a.home ==> u in b.home
    ensures SpecsOk(b, after)
  {
  }

  lemma OwnerHeld(s: State, key: Key)
    requires Front(s) && key in s.flights && s.flights[key].OwnerListed?
    ensures var o := s.flights[key].owner;
            o.meta.key == key && (OwnerCurrent(s, o) ==> s.owners[key] == o)
  {
    assert FlightOk(s.log, s.owners, s.executions, key, s.flights[key]);
  }

  lemma UpdateKeepsSpecs(s: State, key: Key)
    requires CanUpdateOwner(s, key) && s.flights[key].owner.meta.key == key
    requires OwnerCurrent(s, s.flights[key].owner) ==> s.owners[key] == s.flights[key].owner
    ensures SameOwners(s.owners, AfterUpdateOwner(s, key).owners)
  {
  }

  lemma SameSpecs(s: State, a: Action)
    requires Front(s) && Enabled(s, a) && !a.CreateOwner? && !a.EditSpec?
    ensures SameOwners(s.owners, Apply(s, a).owners)
  {
    if a.TouchOwner? {
      assert OwnerOk(s.log, a.key, s.owners[a.key]);
    } else if a.UpdateOwner? {
      OwnerHeld(s, a.key);
      UpdateKeepsSpecs(s, a.key);
    } else if !a.DeleteOwner? {
      OwnersUntouched(s, a);
    }
  }

  lemma OwnersUntouched(s: State, a: Action)
    requires Enabled(s, a)
    requires !a.CreateOwner? && !a.EditSpec? && !a.TouchOwner? && !a.UpdateOwner? && !a.DeleteOwner?
    ensures Apply(s, a).owners == s.owners
  {
    if ByUser(a) || ByEnvironment(a) {
      OthersLeaveOwners(s, a);
    } else if ByOwnerReconcile(a) {
      OwnerReconcileLeavesOwners(s, a);
    } else {
      ExecutionReconcileLeavesOwners(s, a);
    }
  }

  lemma OthersLeaveOwners(s: State, a: Action)
    requires Enabled(s, a) && (ByEnvironment(a) || a.CreateLoose? || a.TouchExecution? || a.DeleteExecution?)
    ensures Apply(s, a).owners == s.owners
  {
  }

  lemma OwnerReconcileLeavesOwners(s: State, a: Action)
    requires Enabled(s, a) && ByOwnerReconcile(a) && !a.UpdateOwner?
    ensures Apply(s, a).owners == s.owners
  {
  }

  lemma ExecutionReconcileLeavesOwners(s: State, a: Action)
    requires Enabled(s, a) && ByExecutionReconcile(a)
    ensures Apply(s, a).owners == s.owners
  {
    if OnJobs(a) {
      JobStepLeavesOwners(s, a);
    }
  }

  lemma JobStepLeavesOwners(s: State, a: Action)
    requires Enabled(s, a) && OnJobs(a)
    ensures Apply(s, a).owners == s.owners
  {
  }

  /** Specs are as they were, and uids stay given out. */
  ghost predicate KeepsSpecs(a: Log, b: Log) {
    b.specs == a.specs && forall u :: u in a.home ==> u in b.home
  }

  lemma LogUntouched(s: State, a: Action)
    requires Enabled(s, a) && !a.CreateOwner? && !a.EditSpec?
    ensures KeepsSpecs(s.log, Apply(s, a).log)
  {
    if ByUser(a) || ByEnvironment(a) {
      OthersLeaveSpecs(s, a);
    } else if ByOwnerReconcile(a) {
      OwnerReconcileLeavesSpecs(s, a);
    } else {
      ExecutionReconcileLeavesSpecs(s, a);
    }
  }

  lemma OthersLeaveSpecs(s: State, a: Action)
    requires Enabled(s, a) && (ByUser(a) || ByEnvironment(a)) && !a.CreateOwner? && !a.EditSpec?
    ensures KeepsSpecs(s.log, Apply(s, a).log)
  {
  }

  lemma OwnerReconcileLeavesSpecs(s: State, a: Action)
    requires Enabled(s, a) && ByOwnerReconcile(a)
    ensures KeepsSpecs(s.log, Apply(s, a).log)
  {
  }

  lemma ExecutionReconcileLeavesSpecs(s: State, a: Action)
    requires Enabled(s, a) && ByExecutionReconcile(a)
    ensures KeepsSpecs(s.log, Apply(s, a).log)
  {
    if OnJobs(a) {
      JobStepLeavesSpecs(s, a);
    }
  }

  lemma JobStepLeavesSpecs(s: State, a: Action)
    requires Enabled(s, a) && OnJobs(a)
    ensures KeepsSpecs(s.log, Apply(s, a).log)
  {
    if a.CreateJob? {
      CreateJobLeavesSpecs(s, a.key, a.uid, a.name, a.defaultImage);
    }
  }

  lemma CreateJobLeavesSpecs(s: State, key: Key, uid: Uid, name: string, defaultImage: string)
    requires CanCreateJob(s, key, uid, name)
    ensures KeepsSpecs(s.log, AfterCreateJob(s, key, uid, name, defaultImage).log)
  {
  }

  lemma SpecsStep(s: State, a: Action)
    requires Base(s) && Enabled(s, a)
    ensures SpecsOk(Apply(s, a).log, Apply(s, a).owners)
  {
    if a.CreateOwner? || a.EditSpec? {
      NewSpecStep(s, a);
    } else {
      SameSpecs(s, a);
      LogUntouched(s, a);
      SpecsKept(s.log, Apply(s, a).log, s.owners, Apply(s, a).owners);
    }
  }

  /** One step of anyone, with a Job list of any age. */
  lemma StepBase(s: State, a: Action)
    requires Base(s) && Enabled(s, a)
    ensures Base(Apply(s, a))
  {
    if ByUser(a) {
      UserFront(s, a);
    } else if ByEnvironment(a) {
      EnvironmentFront(s, a);
    } else if ByOwnerReconcile(a) {
      OwnerReconcileFront(s, a);
    } else {
      ExecutionReconcileFront(s, a);
    }
    BackStep(s, a);
    SpecsStep(s, a);
  }

  lemma InitialBase(s: State)
    requires Initial(s)
    ensures Base(s)
  {
  }

  lemma {:induction false} RunBase(s: State, run: seq<Action>, freshReads: bool)
    requires Base(s) && CanRun(s, run, freshReads)
    ensures Base(Final(s, run, freshReads))
    decreases |run|
  {
    if run != [] {
      StepBase(s, run[0]);
      RunBase(Apply(s, run[0]), run[1..], freshReads);
    }
  }

  lemma ReachableBase(t: State, freshReads: bool)
    requires Reachable(t, freshReads)
    ensures Base(t)
  {
    var s :| Initial(s) && Leads(s, t, freshReads);
    var run :| CanRun(s, run, freshReads) && Final(s, run, freshReads) == t;
    InitialBase(s);
    RunBase(s, run, freshReads);
  }
}
