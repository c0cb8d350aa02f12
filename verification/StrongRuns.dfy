/** Strong over whole runs with fresh Job lists. */
module StrongRuns {
  import opened Objects
  import opened Protocol
  import opened Invariants
  import opened BaseRuns
  import opened FreshSteps

  lemma UserFresh(s: State, a: Action)
    requires Front(s) && BackAt(s) && FreshAt(s) && Enabled(s, a) && ByUser(a)
    ensures FreshAt(Apply(s, a))
  {
    if a.CreateLoose? || a.TouchExecution? || a.DeleteExecution? {
      ExecutionUserFresh(s, a);
    } else {
      EditFresh(s, a);
    }
  }

  lemma ExecutionUserFresh(s: State, a: Action)
    requires Front(s) && BackAt(s) && FreshAt(s) && Enabled(s, a)
    requires a.CreateLoose? || a.TouchExecution? || a.DeleteExecution?
    ensures FreshAt(Apply(s, a))
  {
    if a.CreateLoose? {
      CreateLooseFresh(s, a.key, a.uid, a.execSpec, a.annotations);
    } else if a.TouchExecution? {
      TouchExecutionFresh(s, a.key);
    } else {
      DeleteExecutionFresh(s, a.key);
    }
  }

  lemma EditFresh(s: State, a: Action)
    requires Front(s) && FreshAt(s) && Enabled(s, a)
    requires a.CreateOwner? || a.EditSpec? || a.TouchOwner? || a.DeleteOwner?
    ensures FreshAt(Apply(s, a))
  {
    assert a.EditSpec? || a.TouchOwner? ==> OwnerOk(s.log, a.key, s.owners[a.key]);
    FreshDirty(s, s.dirty + {a.key});
  }

  lemma QueueFresh(s: State, a: Action)
    requires FreshAt(s) && Enabled(s, a) && (a.Tick? || a.Requeue? || a.Restart? || a.Pop? || a.Fail? || a.Finish?)
    ensures FreshAt(Apply(s, a))
  {
    if a.Pop? || a.Finish? || a.Fail? {
      WorkFresh(s, a);
    } else if a.Requeue? {
      FreshDirty(s, s.dirty + {a.key});
    } else if a.Restart? {
      RestartFresh(s);
    }
  }

  lemma WorkFresh(s: State, a: Action)
    requires FreshAt(s) && Enabled(s, a) && (a.Pop? || a.Finish? || a.Fail?)
    ensures FreshAt(Apply(s, a))
  {
    if a.Pop? {
      PopFresh(s, a.key);
    } else if a.Finish? {
      FinishFresh(s, a.key);
    } else {
      FreshMove(s, a.key, Ended(Error));
    }
  }

  lemma ClusterFresh(s: State, a: Action)
    requires Front(s) && BackAt(s) && FreshAt(s) && Enabled(s, a) && (a.JobProgress? || a.DeleteOrphan?)
    ensures FreshAt(Apply(s, a))
  {
    if a.JobProgress? {
      JobProgressFresh(s, a.key, a.status);
    } else {
      DeleteOrphanFresh(s, a.key);
    }
  }

  lemma CreateRunFresh(s: State, a: Action)
    requires Front(s) && BackAt(s) && FreshAt(s) && Enabled(s, a) && a.CreateExecution?
    ensures FreshAt(Apply(s, a))
  {
    CreateExecutionFresh(s, a.key, a.uid, a.name);
  }

  lemma MirrorFresh(s: State, a: Action)
    requires Front(s) && FreshAt(s) && Enabled(s, a) && a.UpdateOwner?
    ensures FreshAt(Apply(s, a))
  {
    UpdateOwnerFresh(s, a.key);
  }

  lemma OwnerReadFresh(s: State, a: Action)
    requires Front(s) && FreshAt(s) && Enabled(s, a) && (a.GetOwner? || a.ListExecutions? || a.RestOwner?)
    ensures FreshAt(Apply(s, a))
  {
    if a.GetOwner? {
      GetOwnerFresh(s, a.key);
    } else if a.ListExecutions? {
      ListExecutionsFresh(s, a.key, a.executions);
    } else {
      RestOwnerFresh(s, a.key);
    }
  }

  lemma GetOwnerFresh(s: State, key: Key)
    requires Front(s) && FreshAt(s) && CanGetOwner(s, key)
    ensures FreshAt(AfterGetOwner(s, key))
  {
    NoExecutionThere(s, key);
    FreshMove(s, key, AfterGetOwner(s, key).flights[key]);
  }

  lemma RestOwnerFresh(s: State, key: Key)
    requires Front(s) && FreshAt(s) && CanRest(s, key)
    ensures FreshAt(SetFlight(s, key, Ended(Done)))
  {
    OwnerKeyed(s, key);
    FreshMove(s, key, Ended(Done));
  }

  lemma ReadFresh(s: State, a: Action)
    requires Front(s) && BackAt(s) && FreshAt(s) && Enabled(s, a) && FreshRead(s, a)
    requires a.GetExecution? || a.ListJobs? || a.ReadModule?
    ensures FreshAt(Apply(s, a))
  {
    if a.ListJobs? {
      ListJobsFresh(s, a.key, a.jobs);
    } else {
      GetFresh(s, a);
    }
  }

  lemma GetFresh(s: State, a: Action)
    requires Front(s) && FreshAt(s) && Enabled(s, a) && (a.GetExecution? || a.ReadModule?)
    ensures FreshAt(Apply(s, a))
  {
    if a.GetExecution? {
      GetExecutionFresh(s, a.key);
    } else {
      ReadModuleFresh(s, a.key);
    }
  }

  lemma CreateJobFreshly(s: State, a: Action)
    requires Front(s) && BackAt(s) && FreshAt(s) && Enabled(s, a) && a.CreateJob?
    ensures FreshAt(Apply(s, a))
  {
    CreateJobFresh(s, a.key, a.uid, a.name, a.defaultImage);
  }

  lemma WriteFresh(s: State, a: Action)
    requires Front(s) && BackAt(s) && FreshAt(s) && Enabled(s, a) && (a.CreateJob? || a.UpdateExecution?)
    ensures FreshAt(Apply(s, a))
  {
    if a.CreateJob? {
      CreateJobFreshly(s, a);
    } else {
      UpdateExecutionFresh(s, a.key);
    }
  }

  /** With fresh lists there is never anything to prune. */
  lemma NothingToPrune(s: State, a: Action)
    requires FreshAt(s)
    ensures a.PruneJob? ==> !Enabled(s, a)
  {
    if a.PruneJob? && a.key in s.flights {
      assert FreshFlight(s.log.newest, s.executions, s.jobs, a.key, s.flights[a.key]);
    }
  }

  lemma StepFresh(s: State, a: Action)
    requires Strong(s) && Enabled(s, a) && FreshRead(s, a)
    ensures FreshAt(Apply(s, a))
  {
    NothingToPrune(s, a);
    if ByUser(a) {
      UserFresh(s, a);
    } else if ByOwnerReconcile(a) {
      OwnerStepFresh(s, a);
    } else if a.GetExecution? || a.ListJobs? || a.ReadModule? {
      ReadFresh(s, a);
    } else if a.CreateJob? || a.UpdateExecution? {
      WriteFresh(s, a);
    } else if a.JobProgress? || a.DeleteOrphan? {
      ClusterFresh(s, a);
    } else {
      QueueFresh(s, a);
    }
  }

  lemma OwnerStepFresh(s: State, a: Action)
    requires Front(s) && BackAt(s) && FreshAt(s) && Enabled(s, a) && ByOwnerReconcile(a)
    ensures FreshAt(Apply(s, a))
  {
    if a.CreateExecution? {
      CreateRunFresh(s, a);
    } else if a.UpdateOwner? {
      MirrorFresh(s, a);
    } else {
      OwnerReadFresh(s, a);
    }
  }

  lemma StepStrong(s: State, a: Action)
    requires Strong(s) && Enabled(s, a) && FreshRead(s, a)
    ensures Strong(Apply(s, a))
  {
    StepBase(s, a);
    StepFresh(s, a);
  }

  lemma {:induction false} RunStrong(s: State, run: seq<Action>)
    requires Strong(s) && CanRun(s, run, true)
    ensures Strong(Final(s, run, true))
    decreases |run|
  {
    if run != [] {
      StepStrong(s, run[0]);
      RunStrong(Apply(s, run[0]), run[1..]);
    }
  }

  lemma InitialStrong(s: State)
    requires Initial(s)
    ensures Strong(s)
  {
    InitialBase(s);
  }

  lemma ReachableStrong(t: State)
    requires Reachable(t, true)
    ensures Strong(t)
  {
    var s :| Initial(s) && Leads(s, t, true);
    var run :| CanRun(s, run, true) && Final(s, run, true) == t;
    InitialStrong(s);
    RunStrong(s, run);
  }
}
