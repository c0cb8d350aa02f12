/** Every action keeps Base, whatever age its Job list has. */
module BaseSteps {
  import opened Basics
  import opened Objects
  import opened Decisions
  import opened Selection
  import opened Protocol
  import opened Invariants
  import opened FrontSteps
  import opened BackSteps

  // ---------- work queue ----------

  lemma PopFront(s: State, key: Key)
    requires Front(s) && CanPop(s, key)
    ensures Front(SetFlight(s, key, Popped).(dirty := s.dirty - {key}))
  {
  }

  lemma FailFront(s: State, key: Key)
    requires Front(s) && CanFail(s, key)
    ensures Front(SetFlight(s, key, Ended(Error)))
  {
    MoveFlight(s, key, Ended(Error));
  }

  lemma FinishFront(s: State, key: Key)
    requires Front(s) && CanFinish(s, key)
    ensures Front(AfterFinish(s, key))
  {
    var t := AfterFinish(s, key);
    forall k | k in t.owners && k !in t.dirty
      ensures OwnerAwake(t.executions, t.owners[k], FlightAt(t.flights, k))
    {
      assert OwnerAwake(s.executions, s.owners[k], FlightAt(s.flights, k));
    }
  }

  // ---------- owner reconcile ----------

  lemma GetOwnerFront(s: State, key: Key)
    requires Front(s) && CanGetOwner(s, key)
    ensures Front(AfterGetOwner(s, key))
  {
    if key in s.owners {
      assert OwnerOk(s.log, key, s.owners[key]);
      assert ChildrenUpTo(s.executions, s.owners[key].meta.uid, s.owners[key].meta.generation);
      MoveFlight(s, key, OwnerGot(s.owners[key]));
    } else {
      MoveFlight(s, key, Ended(Done));
    }
  }

  /** The namespace's list holds all of the owner's executions, and the newest is selected. */
  lemma ListFindsNewest(s: State, key: Key, items: seq<Execution>)
    requires Front(s) && CanListExecutions(s, key, items)
    ensures IsNewest(s.executions, s.flights[key].owner.meta.uid, Select(items, s.flights[key].owner.meta.uid))
  {
    var o := s.flights[key].owner;
    assert FlightOk(s.log, s.owners, s.executions, key, s.flights[key]);
    assert OwnerOk(s.log, key, o);
    forall k | k in s.executions && ControlledBy(s.executions[k].meta, o.meta.uid)
      ensures k.ns == key.ns && s.executions[k].meta.key == k
    {
      assert ExecOk(s.log, k, s.executions[k]);
    }
    forall k, l | k in s.executions && l in s.executions && k != l
      && ControlledBy(s.executions[k].meta, o.meta.uid) && ControlledBy(s.executions[l].meta, o.meta.uid)
      ensures s.executions[k].meta.created != s.executions[l].meta.created
    {
      assert Ordered(s.executions[k], s.executions[l]);
    }
    SelectFindsNewest(s.executions, key.ns, items, o.meta.uid);
  }

  /** What a reconcile knows once it holds the owner and its newest execution. */
  lemma NewestIsOk(s: State, key: Key, o: Owner, last: Option<Execution>)
    requires Front(s) && OwnerCopyOk(s.log, s.owners, s.executions, key, o) && IsNewest(s.executions, o.meta.uid, last)
    ensures last.Some? ==> LastOk(s.log, key, o, last.value)
    ensures Decide(o, last).CreateRun? ==> ChildrenUpTo(s.executions, o.meta.uid, o.meta.generation - 1)
  {
    if last.Some? {
      var e := last.value;
      assert ExecOk(s.log, e.meta.key, e);
      StampTextCurrent(o, e);
      if Decide(o, last).CreateRun? {
        assert Stamp(e) < o.meta.generation;
        forall l | l in s.executions && ControlledBy(s.executions[l].meta, o.meta.uid)
          ensures Stamp(s.executions[l]) <= o.meta.generation - 1
        {
          assert l != e.meta.key ==> Ordered(s.executions[l], e);
        }
      }
    }
  }

  lemma ListExecutionsFront(s: State, key: Key, items: seq<Execution>)
    requires Front(s) && CanListExecutions(s, key, items)
    ensures Front(AfterListExecutions(s, key, items))
  {
    var o := s.flights[key].owner;
    var last := Select(items, o.meta.uid);
    assert FlightOk(s.log, s.owners, s.executions, key, s.flights[key]);
    ListFindsNewest(s, key, items);
    NewestIsOk(s, key, o, last);
    if key in s.owners && key !in s.dirty {
      assert OwnerAwake(s.executions, s.owners[key], Some(s.flights[key]));
    }
    MoveFlight(s, key, OwnerListed(o, last));
  }

  lemma RestOwnerFront(s: State, key: Key)
    requires Front(s) && CanRest(s, key)
    ensures Front(SetFlight(s, key, Ended(Done)))
  {
    if key in s.owners && key !in s.dirty {
      assert OwnerAwake(s.executions, s.owners[key], Some(s.flights[key]));
    }
    MoveFlight(s, key, Ended(Done));
  }

  lemma MirrorNameOk(s: State, key: Key)
    requires Front(s) && CanUpdateOwner(s, key) && OwnerCurrent(s, s.flights[key].owner)
    ensures var o := s.flights[key].owner;
            var status := Decide(o, s.flights[key].last).status;
            s.owners[key] == o && o.meta.key == key && NameOk(s.log, s.executions, o.(status := status))
            && status.observedGeneration == o.meta.generation >= 0
  {
    assert FlightOk(s.log, s.owners, s.executions, key, s.flights[key]);
  }

  lemma UpdateOwnerFront(s: State, key: Key)
    requires Front(s) && CanUpdateOwner(s, key)
    ensures Front(AfterUpdateOwner(s, key))
  {
    var o, last := s.flights[key].owner, s.flights[key].last;
    assert FlightOk(s.log, s.owners, s.executions, key, s.flights[key]);
    if key in s.owners && key !in s.dirty {
      assert OwnerAwake(s.executions, s.owners[key], Some(s.flights[key]));
    }
    if key !in s.owners {
      MoveFlight(s, key, Ended(Error));
    } else if !OwnerCurrent(s, o) {
      MoveFlight(s, key, Ended(Done));
    } else {
      MirrorNameOk(s, key);
      var o' := o.(status := Decide(o, last).status);
      PutOwnerFront(s, o');
      MoveFlight(PutOwner(s, o'), key, Ended(Done));
    }
  }

  // ---------- execution reconcile ----------

  lemma NoOwnerThere(s: State, key: Key)
    requires Front(s) && key.kind == ExecutionKind
    ensures key !in s.owners
  {
    assert key in s.owners ==> OwnerOk(s.log, key, s.owners[key]);
  }

  lemma GetExecutionFront(s: State, key: Key)
    requires Front(s) && CanGetExecution(s, key)
    ensures Front(AfterGetExecution(s, key))
  {
    NoOwnerThere(s, key);
    if key in s.executions {
      assert ExecOk(s.log, key, s.executions[key]);
      MoveFlight(s, key, ExecGot(s.executions[key]));
    } else {
      MoveFlight(s, key, Ended(Done));
    }
  }

  lemma NoTies(log: Log, view: Jobs, ns: string, items: seq<Job>, uid: Uid)
    requires MadeOk(log.home, log.made, log.newest) && ViewOk(log.made, view) && IsListing(view, ns, items)
    ensures forall i, j ::
              0 <= i < j < |items| && ControlledBy(items[i].meta, uid) && ControlledBy(items[j].meta, uid) ==>
                items[i].meta.created != items[j].meta.created
  {
    forall i, j | 0 <= i < j < |items| && ControlledBy(items[i].meta, uid) && ControlledBy(items[j].meta, uid)
      ensures items[i].meta.created != items[j].meta.created
    {
      assert Traced(log.made, items[i].meta.key, items[i].meta) && Traced(log.made, items[j].meta.key, items[j].meta);
    }
  }

  /** Whatever the age of the list: one selected Job, and strictly older ones to delete. */
  lemma ListedSelectionOk(log: Log, view: Jobs, items: seq<Job>, x: Execution)
    requires MadeOk(log.home, log.made, log.newest) && ViewOk(log.made, view) && IsListing(view, x.meta.key.ns, items)
    ensures var owned := Sort(Owned(items, x.meta.uid));
            owned != [] ==> SelectionOk(log.made, x, owned[0], owned[1..]) && owned[0] in items
  {
    NoTies(log, view, x.meta.key.ns, items, x.meta.uid);
    SortOwnedStrict(items, x.meta.uid);
    var owned := Sort(Owned(items, x.meta.uid));
    forall i | 0 <= i < |owned|
      ensures owned[i] in items && ControlledBy(owned[i].meta, x.meta.uid)
      ensures Traced(log.made, owned[i].meta.key, owned[i].meta)
    {
      assert owned[i] in owned;
    }
  }

  lemma ListJobsFront(s: State, key: Key, view: Jobs, items: seq<Job>)
    requires Front(s) && Back(s.log, s.executions, s.jobs) && CanListJobs(s, key, view, items)
    ensures Front(AfterListJobs(s, key, items))
  {
    var x := s.flights[key].exec;
    var owned := Sort(Owned(items, x.meta.uid));
    assert FlightOk(s.log, s.owners, s.executions, key, s.flights[key]);
    if owned == [] {
      MoveFlight(s, key, ExecJobless(x));
    } else {
      ListedSelectionOk(s.log, view, items, x);
      MoveFlight(s, key, ExecJob(x, owned[0], owned[1..]));
    }
  }

  lemma ReadModuleFront(s: State, key: Key)
    requires Front(s) && SpecsOk(s.log, s.owners) && CanReadModule(s, key)
    ensures Front(AfterReadModule(s, key))
  {
    var x := s.flights[key].exec;
    var m := s.owners[ModuleKeyOf(x.spec)];
    assert FlightOk(s.log, s.owners, s.executions, key, s.flights[key]);
    assert OwnerOk(s.log, ModuleKeyOf(x.spec), m);
    ModuleStampOk(s, x, m);
    MoveFlight(s, key, ExecModule(x, m));
  }

  /** A stored module that controls the execution has at least the generation it was made for. */
  lemma ModuleStampOk(s: State, x: Execution, m: Owner)
    requires SpecsOk(s.log, s.owners) && ChildOk(s.log, x)
    requires m.meta.key in s.owners && s.owners[m.meta.key] == m
    ensures ControlledBy(x.meta, m.meta.uid) ==> Stamp(x) <= m.meta.generation
  {
    if ControlledBy(x.meta, m.meta.uid) {
      assert (m.meta.uid, Stamp(x)) in s.log.specs;
    }
  }

  lemma CreateJobFront(s: State, key: Key, uid: Uid, name: string, defaultImage: string)
    requires Front(s) && Back(s.log, s.executions, s.jobs) && CanCreateJob(s, key, uid, name)
    ensures Front(AfterCreateJob(s, key, uid, name, defaultImage))
  {
    var t := AfterCreateJob(s, key, uid, name, defaultImage);
    CreateJobBack(s, key, uid, name, defaultImage);
    Prepare(s, t.dirty, t.log);
    assert s.dirty + t.dirty == t.dirty;
    MoveFlight(s.(dirty := t.dirty, log := t.log), key, Ended(RequeueNow));
  }

  lemma PruneJobFront(s: State, key: Key, deleted: bool)
    requires Front(s) && CanPrune(s, key)
    ensures Front(AfterPruneJob(s, key, deleted))
  {
    var f := s.flights[key];
    var t := AfterPruneJob(s, key, deleted);
    assert FlightOk(s.log, s.owners, s.executions, key, f);
    assert FlightOk(s.log, s.owners, s.executions, key, f.(stale := f.stale[1..])) by {
      forall i | 0 <= i < |f.stale| - 1 ensures StaleOk(s.log.made, f.exec, f.latest, f.stale[1..][i]) {
        assert StaleOk(s.log.made, f.exec, f.latest, f.stale[i + 1]);
      }
    }
    MoveFlight(s, key, f.(stale := f.stale[1..]));
    Prepare(SetFlight(s, key, f.(stale := f.stale[1..])), t.dirty, t.log);
    assert s.dirty + t.dirty == t.dirty;
  }

  lemma UpdateExecutionFront(s: State, key: Key)
    requires Front(s) && CanUpdateExecution(s, key)
    ensures Front(AfterUpdateExecution(s, key))
  {
    var x := s.flights[key].exec;
    var status := NextStatus(x.status, s.flights[key].latest);
    assert FlightOk(s.log, s.owners, s.executions, key, s.flights[key]);
    NoOwnerThere(s, key);
    MoveFlight(s, key, Ended(ExecOutcome(status.phase)));
    MoveFlight(s, key, Ended(Error));
    if status != x.status && ExecCurrent(s, x) {
      PutExecutionFront(SetFlight(s, key, Ended(ExecOutcome(status.phase))), x.(status := status));
    }
  }
}
