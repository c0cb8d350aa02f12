/** What the protocol guarantees in every reachable state and along every run. */
module Safety {
  import opened Basics
  import opened Decimal
  import opened Objects
  import opened Decisions
  import opened Selection
  import opened Protocol
  import opened Invariants
  import opened FrontSteps
  import opened BackSteps
  import opened BaseRuns
  import opened FreshSteps
  import opened StrongRuns

  // ---------- executions of one owner ----------

  predicate HasFinished(e: Execution) {
    e.status.phase == Succeeded || e.status.phase == Failed
  }

  /** At most one execution of an owner has not finished, and it is the newest. */
  lemma NoOverlappingRuns(s: State, k: Key, l: Key)
    requires Reachable(s, true) && k in s.executions && l in s.executions && k != l
    requires Siblings(s.executions[k].meta, s.executions[l].meta)
    ensures s.executions[k].meta.created < s.executions[l].meta.created ==> HasFinished(s.executions[k])
    ensures HasFinished(s.executions[k]) || HasFinished(s.executions[l])
  {
    ReachableStrong(s);
    assert Ordered(s.executions[k], s.executions[l]);
  }

  /**
   * One execution per generation: in creation order the stamps strictly increase, none exceeds the
   * owner's generation, and each stamp is the decimal text of its generation. Job lists of any age.
   */
  lemma OneRunPerGeneration(s: State, k: Key, l: Key, freshReads: bool)
    requires Reachable(s, freshReads) && k in s.executions && l in s.executions && k != l
    requires Siblings(s.executions[k].meta, s.executions[l].meta)
    ensures s.executions[k].meta.created < s.executions[l].meta.created <==>
            Stamp(s.executions[k]) < Stamp(s.executions[l])
    ensures var kind := s.executions[k].meta.controller.value.kind;
            StampText(kind, s.executions[k]) != StampText(kind, s.executions[l])
    ensures forall o :: o in s.owners && ControlledBy(s.executions[k].meta, s.owners[o].meta.uid) ==>
              Stamp(s.executions[k]) <= s.owners[o].meta.generation
  {
    ReachableBase(s, freshReads);
    var e, f := s.executions[k], s.executions[l];
    assert Ordered(e, f) && Ordered(f, e);
    assert ExecOk(s.log, k, e) && ExecOk(s.log, l, f);
    FormatInjective(Stamp(e), Stamp(f));
    forall o | o in s.owners && ControlledBy(e.meta, s.owners[o].meta.uid)
      ensures Stamp(e) <= s.owners[o].meta.generation
    {
      assert ChildrenUpTo(s.executions, s.owners[o].meta.uid, s.owners[o].meta.generation);
    }
  }

  /**
   * An execution was made from its owner's spec at exactly the generation it is stamped with: it runs the template's
   * action and engine, on the module that spec calls for, and has the template's annotations.
   */
  lemma RunProvenance(s: State, k: Key, freshReads: bool)
    requires Reachable(s, freshReads) && k in s.executions && s.executions[k].meta.controller.Some?
    ensures var e := s.executions[k];
            var p := (e.meta.controller.value.uid, Stamp(e));
            && p in s.log.specs && RunsFor(ControllerKey(e.meta), s.log.specs[p], e.spec)
            && Annotated(e.meta.controller.value.kind, s.log.specs[p].template.annotations, p.1, e.meta.annotations)
  {
    ReachableBase(s, freshReads);
    MadeForRun(s.log, k, s.executions[k]);
  }

  lemma MadeForRun(log: Log, k: Key, e: Execution)
    requires ExecOk(log, k, e) && e.meta.controller.Some?
    ensures var p := (e.meta.controller.value.uid, Stamp(e));
            && p in log.specs && RunsFor(ControllerKey(e.meta), log.specs[p], e.spec)
            && Annotated(e.meta.controller.value.kind, log.specs[p].template.annotations, p.1, e.meta.annotations)
  {
    var kind, p := e.meta.controller.value.kind, (e.meta.controller.value.uid, Stamp(e));
    RunSpecExactly(ControllerKey(e.meta), log.specs[p], e.spec);
    AnnotationsExactly(kind, log.specs[p].template.annotations, p.1, e.meta.annotations);
  }

  // ---------- ownership ----------

  /**
   * Listing one namespace loses nothing: an owner's executions live in its namespace, name it as
   * controller, and the selection from the list is the newest of the whole store.
   */
  lemma OwnershipPartition(s: State, k: Key, items: seq<Execution>, freshReads: bool)
    requires Reachable(s, freshReads) && k in s.owners && IsListing(s.executions, k.ns, items)
    ensures forall l :: l in s.executions && ControlledBy(s.executions[l].meta, s.owners[k].meta.uid) ==>
              s.executions[l] in items && ControllerKey(s.executions[l].meta) == k
    ensures IsNewest(s.executions, s.owners[k].meta.uid, Select(items, s.owners[k].meta.uid))
  {
    ReachableBase(s, freshReads);
    NamespaceHoldsAll(s, k, s.owners[k].meta.uid, items);
  }

  lemma NamespaceHoldsAll(s: State, k: Key, uid: Uid, items: seq<Execution>)
    requires Front(s) && Home(s.log.home, uid, k) && IsListing(s.executions, k.ns, items)
    ensures forall l :: l in s.executions && ControlledBy(s.executions[l].meta, uid) ==>
              s.executions[l] in items && ControllerKey(s.executions[l].meta) == k
    ensures IsNewest(s.executions, uid, Select(items, uid))
  {
    forall l | l in s.executions && ControlledBy(s.executions[l].meta, uid)
      ensures l.ns == k.ns && s.executions[l].meta.key == l && s.executions[l] in items
      ensures ControllerKey(s.executions[l].meta) == k
    {
      assert ExecOk(s.log, l, s.executions[l]);
    }
    forall l, m | l in s.executions && m in s.executions && l != m
      && ControlledBy(s.executions[l].meta, uid) && ControlledBy(s.executions[m].meta, uid)
      ensures s.executions[l].meta.created != s.executions[m].meta.created
    {
      assert Ordered(s.executions[l], s.executions[m]);
    }
    SelectFindsNewest(s.executions, k.ns, items, uid);
  }

  /** An owner created under a name used before starts with no executions, whatever is left of the old one's. */
  lemma NewOwnerStartsEmpty(s: State, key: Key, uid: Uid, spec: OwnerSpec, freshReads: bool)
    requires Reachable(s, freshReads) && CanCreateOwner(s, key, uid, spec)
    ensures IsNewest(AfterCreateOwner(s, key, uid, spec).executions, uid, None)
  {
    ReachableBase(s, freshReads);
    NoChildrenYet(s.log, s.executions, uid);
  }

  /** Any answer is the newest child of uid in both or in neither. */
  ghost predicate SameSelection(before: Executions, after: Executions, uid: Uid) {
    forall last :: IsNewest(before, uid, last) <==> IsNewest(after, uid, last)
  }

  lemma CreateLeavesOthers(s: State, key: Key, uid: Uid, name: string, other: Uid)
    requires Front(s) && CanCreateExecution(s, key, uid, name) && s.flights[key].owner.meta.uid != other
    ensures SameSelection(s.executions, AfterCreateExecution(s, key, uid, name).executions, other)
  {
    var o := s.flights[key].owner;
    var e := NewExecution(o, uid, name, s.now, s.log.version);
    NewExecutionMade(o, uid, name, s.now, s.log.version);
    var log := NewId(s.log, uid, e.meta.key);
    CreatedFitsStore(s, key, e, uid, name, log);
    NewestFrame(s.executions, s.executions[e.meta.key := e], e.meta.key, other);
  }

  lemma UpdateOwnerFrame(s: State, key: Key, other: Key)
    requires CanUpdateOwner(s, key) && s.flights[key].owner.meta.key == key
    requires other in s.owners && other != key
    ensures other in AfterUpdateOwner(s, key).owners && AfterUpdateOwner(s, key).owners[other] == s.owners[other]
  {
  }

  lemma OwnerReconcileFrame(s: State, a: Action, other: Key)
    requires Enabled(s, a) && ByOwnerReconcile(a) && other in s.owners && other != a.key
    requires a.UpdateOwner? ==> s.flights[a.key].owner.meta.key == a.key
    ensures other in Apply(s, a).owners && Apply(s, a).owners[other] == s.owners[other]
    ensures !a.CreateExecution? ==> Apply(s, a).executions == s.executions
  {
    if a.UpdateOwner? {
      UpdateOwnerFrame(s, a.key, other);
    } else {
      OwnersUntouched(s, a);
    }
    if !a.CreateExecution? {
      ExecutionsUntouched(s, a);
    }
  }

  /** No step of the reconcile of one owner changes another owner, or which execution it selects. */
  lemma NonInterference(s: State, a: Action, other: Key, freshReads: bool)
    requires Reachable(s, freshReads) && Enabled(s, a) && ByOwnerReconcile(a)
    requires other in s.owners && other != a.key
    ensures other in Apply(s, a).owners && Apply(s, a).owners[other] == s.owners[other]
    ensures SameSelection(s.executions, Apply(s, a).executions, s.owners[other].meta.uid)
  {
    ReachableBase(s, freshReads);
    OwnersElsewhere(s, a, other);
    SelectionElsewhere(s, a, other);
  }

  lemma SelectionElsewhere(s: State, a: Action, other: Key)
    requires Front(s) && Enabled(s, a) && ByOwnerReconcile(a) && other in s.owners && other != a.key
    ensures SameSelection(s.executions, Apply(s, a).executions, s.owners[other].meta.uid)
  {
    if a.CreateExecution? {
      CreatedElsewhere(s, a, other);
    } else {
      SelectionStays(s, a, s.owners[other].meta.uid);
    }
  }

  lemma CreatedElsewhere(s: State, a: Action, other: Key)
    requires Front(s) && Enabled(s, a) && a.CreateExecution? && other in s.owners && other != a.key
    ensures SameSelection(s.executions, Apply(s, a).executions, s.owners[other].meta.uid)
  {
    CreateElsewhere(s, a.key, a.uid, a.name, other);
  }

  lemma SelectionStays(s: State, a: Action, uid: Uid)
    requires Enabled(s, a) && ByOwnerReconcile(a) && !a.CreateExecution?
    ensures SameSelection(s.executions, Apply(s, a).executions, uid)
  {
    ExecutionsUntouched(s, a);
  }

  lemma CreateElsewhere(s: State, key: Key, uid: Uid, name: string, other: Key)
    requires Front(s) && CanCreateExecution(s, key, uid, name) && other in s.owners && other != key
    ensures SameSelection(s.executions, AfterCreateExecution(s, key, uid, name).executions, s.owners[other].meta.uid)
  {
    OwnUid(s, key, other);
    CreateLeavesOthers(s, key, uid, name, s.owners[other].meta.uid);
  }

  lemma OwnersElsewhere(s: State, a: Action, other: Key)
    requires Front(s) && Enabled(s, a) && ByOwnerReconcile(a) && other in s.owners && other != a.key
    ensures other in Apply(s, a).owners && Apply(s, a).owners[other] == s.owners[other]
  {
    if a.UpdateOwner? {
      OwnerHeld(s, a.key);
    }
    OwnerReconcileFrame(s, a, other);
  }

  lemma OwnUid(s: State, key: Key, other: Key)
    requires Front(s) && key in s.flights && s.flights[key].OwnerListed? && other in s.owners && other != key
    ensures s.flights[key].owner.meta.uid != s.owners[other].meta.uid
  {
    FlightUids(s, key);
    assert OwnerOk(s.log, other, s.owners[other]);
  }

  // ---------- phases over runs ----------

  predicate Progressed(before: Phase, after: Phase) {
    (IsTerminal(before) ==> IsTerminal(after)) && (before == Failed ==> after == Failed)
  }

  lemma ExecutionsUntouched(s: State, a: Action)
    requires Enabled(s, a) && !OnExecution(a)
    ensures Apply(s, a).executions == s.executions
  {
  }

  lemma UpdateProgresses(s: State, key: Key, k: Key)
    requires Front(s) && FreshAt(s) && CanUpdateExecution(s, key) && k in s.executions
    ensures var t := AfterUpdateExecution(s, key);
            k in t.executions && Progressed(s.executions[k].status.phase, t.executions[k].status.phase)
  {
    UpdateKnows(s, key);
    if ExecCurrent(s, s.flights[key].exec) {
      PhaseForward(s.flights[key].exec, s.flights[key].latest);
    }
    UpdateWritesNext(s, key, k);
  }

  lemma UpdateWritesNext(s: State, key: Key, k: Key)
    requires CanUpdateExecution(s, key) && k in s.executions && s.flights[key].exec.meta.key == key
    requires ExecCurrent(s, s.flights[key].exec) ==> s.executions[key] == s.flights[key].exec
    ensures var t := AfterUpdateExecution(s, key);
            var x, latest := s.flights[key].exec, s.flights[key].latest;
            k in t.executions && (t.executions[k].status == s.executions[k].status
                                  || (k == key && ExecCurrent(s, x)
                                     && t.executions[k].status == NextStatus(x.status, latest)))
  {
  }

  lemma NewKeepStatus(s: State, a: Action, k: Key, uid: Uid)
    requires Enabled(s, a) && StoredAs(s.executions, k, uid) && StoredAs(Apply(s, a).executions, k, uid)
    requires (a.CreateLoose? || a.CreateExecution?) && uid in s.log.home
    ensures Apply(s, a).executions[k].status == s.executions[k].status
  {
  }

  lemma OldKeepStatus(s: State, a: Action, k: Key, uid: Uid)
    requires Enabled(s, a) && StoredAs(s.executions, k, uid) && StoredAs(Apply(s, a).executions, k, uid)
    requires (a.TouchExecution? || a.DeleteExecution?) && s.executions[a.key].meta.key == a.key
    ensures Apply(s, a).executions[k].status == s.executions[k].status
  {
  }

  lemma StepProgresses(s: State, a: Action, k: Key, uid: Uid)
    requires Strong(s) && Enabled(s, a) && StoredAs(s.executions, k, uid) && StoredAs(Apply(s, a).executions, k, uid)
    ensures Progressed(s.executions[k].status.phase, Apply(s, a).executions[k].status.phase)
  {
    if !OnExecution(a) {
      ExecutionsUntouched(s, a);
    } else {
      ExecutionStepProgresses(s, a, k, uid);
    }
  }

  lemma ExecutionStepProgresses(s: State, a: Action, k: Key, uid: Uid)
    requires Front(s) && FreshAt(s) && Enabled(s, a) && OnExecution(a)
    requires StoredAs(s.executions, k, uid) && StoredAs(Apply(s, a).executions, k, uid)
    ensures Progressed(s.executions[k].status.phase, Apply(s, a).executions[k].status.phase)
  {
    if a.UpdateExecution? {
      StatusStepProgresses(s, a, k);
    } else {
      OtherStepKeeps(s, a, k, uid);
    }
  }

  lemma StatusStepProgresses(s: State, a: Action, k: Key)
    requires Front(s) && FreshAt(s) && Enabled(s, a) && a.UpdateExecution? && k in s.executions
    ensures k in Apply(s, a).executions
    ensures Progressed(s.executions[k].status.phase, Apply(s, a).executions[k].status.phase)
  {
    UpdateProgresses(s, a.key, k);
  }

  lemma OtherStepKeeps(s: State, a: Action, k: Key, uid: Uid)
    requires Front(s) && Enabled(s, a) && StoredAs(s.executions, k, uid) && StoredAs(Apply(s, a).executions, k, uid)
    requires OnExecution(a) && !a.UpdateExecution?
    ensures Progressed(s.executions[k].status.phase, Apply(s, a).executions[k].status.phase)
  {
    KnownExecutions(s);
    if a.TouchExecution? || a.DeleteExecution? {
      OldKeepStatus(s, a, k, uid);
    } else {
      NewKeepStatus(s, a, k, uid);
    }
  }

  lemma KnownExecutions(s: State)
    requires Front(s)
    ensures forall k :: k in s.executions ==> s.executions[k].meta.key == k && s.executions[k].meta.uid in s.log.home
  {
    assert forall k :: k in s.executions ==> ExecOk(s.log, k, s.executions[k]);
  }

  /** A uid that is not in the store, but was once given out, never comes back. */
  lemma GoneStaysGone(s: State, a: Action, k: Key, uid: Uid)
    requires Front(s) && Enabled(s, a) && uid in s.log.home && !StoredAs(s.executions, k, uid)
    ensures uid in Apply(s, a).log.home && !StoredAs(Apply(s, a).executions, k, uid)
  {
    if !OnExecution(a) {
      ExecutionsUntouched(s, a);
      if !a.CreateOwner? && !a.EditSpec? {
        LogUntouched(s, a);
      }
    } else {
      assert a.TouchExecution? ==> ExecOk(s.log, a.key, s.executions[a.key]);
      if a.UpdateExecution? {
        ExecutionHeld(s, a.key);
      }
      GoneFromStore(s, a, k, uid);
    }
  }

  lemma GoneFromStore(s: State, a: Action, k: Key, uid: Uid)
    requires Enabled(s, a) && OnExecution(a) && uid in s.log.home && !StoredAs(s.executions, k, uid)
    requires a.TouchExecution? ==> s.executions[a.key].meta.key == a.key
    requires a.UpdateExecution? ==>
               var x := s.flights[a.key].exec;
               x.meta.key == a.key && (ExecCurrent(s, x) ==> s.executions[a.key] == x)
    ensures uid in Apply(s, a).log.home && !StoredAs(Apply(s, a).executions, k, uid)
  {
    if a.CreateLoose? || a.CreateExecution? {
      NewIsAnother(s, a, k, uid);
    }
  }

  lemma NewIsAnother(s: State, a: Action, k: Key, uid: Uid)
    requires Enabled(s, a) && (a.CreateLoose? || a.CreateExecution?)
    requires uid in s.log.home && !StoredAs(s.executions, k, uid)
    ensures uid in Apply(s, a).log.home && !StoredAs(Apply(s, a).executions, k, uid)
  {
  }

  lemma {:induction false} GoneForGood(s: State, run: seq<Action>, k: Key, uid: Uid)
    requires Strong(s) && CanRun(s, run, true) && uid in s.log.home && !StoredAs(s.executions, k, uid)
    ensures !StoredAs(Final(s, run, true).executions, k, uid)
    decreases |run|
  {
    if run != [] {
      GoneStaysGone(s, run[0], k, uid);
      StepStrong(s, run[0]);
      GoneForGood(Apply(s, run[0]), run[1..], k, uid);
    }
  }

  lemma {:induction false} RunProgresses(s: State, run: seq<Action>, k: Key, uid: Uid)
    requires Strong(s) && CanRun(s, run, true)
    requires StoredAs(s.executions, k, uid) && StoredAs(Final(s, run, true).executions, k, uid)
    ensures Progressed(s.executions[k].status.phase, Final(s, run, true).executions[k].status.phase)
    decreases |run|
  {
    if run != [] {
      var t := Apply(s, run[0]);
      StepStrong(s, run[0]);
      if StoredAs(t.executions, k, uid) {
        StepProgresses(s, run[0], k, uid);
        RunProgresses(t, run[1..], k, uid);
      } else {
        assert uid in t.log.home by {
          assert ExecOk(s.log, k, s.executions[k]);
          if OnExecution(run[0]) || !(run[0].CreateOwner? || run[0].EditSpec?) { LogUntouched(s, run[0]); }
        }
        GoneForGood(t, run[1..], k, uid);
      }
    }
  }

  /** Finished phases are absorbing: over any run a finished execution stays finished, a failed one failed. */
  lemma FinishedIsForever(s: State, t: State, k: Key, uid: Uid)
    requires Reachable(s, true) && Leads(s, t, true)
    requires StoredAs(s.executions, k, uid) && StoredAs(t.executions, k, uid)
    ensures HasFinished(s.executions[k]) ==> HasFinished(t.executions[k])
    ensures s.executions[k].status.phase == Failed ==> t.executions[k].status.phase == Failed
  {
    ReachableStrong(s);
    var run :| CanRun(s, run, true) && Final(s, run, true) == t;
    RunProgresses(s, run, k, uid);
  }

  // ---------- generations ----------

  /** The execution an owner's status names was made for a generation the status has observed. */
  lemma GenerationSandwich(s: State, o: Key, l: Key, freshReads: bool)
    requires Reachable(s, freshReads) && o in s.owners && l in s.executions
    requires ControlledBy(s.executions[l].meta, s.owners[o].meta.uid)
    requires s.owners[o].status.lastExecution == l.name != ""
    ensures Stamp(s.executions[l]) <= s.owners[o].status.observedGeneration <= s.owners[o].meta.generation
  {
    ReachableBase(s, freshReads);
    assert OwnerOk(s.log, o, s.owners[o]) && NameOk(s.log, s.executions, s.owners[o]);
  }

  ghost predicate OwnedAs(owners: Owners, k: Key, uid: Uid) {
    k in owners && owners[k].meta.uid == uid
  }

  ghost predicate OwnerForward(a: Owner, b: Owner) {
    a.status.observedGeneration <= b.status.observedGeneration && a.meta.generation <= b.meta.generation
  }

  /** The owners after a step are the owners before, one of them perhaps moved forward, gone or new. */
  ghost predicate OwnersForward(s: State, t: State) {
    && (forall k :: k in t.owners ==> t.owners[k].meta.uid !in s.log.home || OwnedAs(s.owners, k, t.owners[k].meta.uid))
    && (forall k :: k in t.owners && OwnedAs(s.owners, k, t.owners[k].meta.uid) ==>
       OwnerForward(s.owners[k], t.owners[k]))
    && (forall u :: u in s.log.home ==> u in t.log.home)
  }

  lemma EditForward(s: State, a: Action)
    requires Front(s) && Enabled(s, a) && (a.CreateOwner? || a.EditSpec? || a.TouchOwner? || a.DeleteOwner?)
    ensures OwnersForward(s, Apply(s, a))
  {
    if a.TouchOwner? || a.EditSpec? {
      OldForward(s, a);
    } else {
      NewOrGoneForward(s, a);
    }
  }

  lemma NewOrGoneForward(s: State, a: Action)
    requires Enabled(s, a) && (a.CreateOwner? || a.DeleteOwner?)
    ensures OwnersForward(s, Apply(s, a))
  {
  }

  lemma OldForward(s: State, a: Action)
    requires Front(s) && Enabled(s, a) && (a.EditSpec? || a.TouchOwner?)
    ensures OwnersForward(s, Apply(s, a))
  {
    OwnerAtKey(s, a.key);
    OneForward(s, Apply(s, a), a.key);
  }

  lemma UpdateForward(s: State, key: Key)
    requires Front(s) && CanUpdateOwner(s, key)
    ensures OwnersForward(s, AfterUpdateOwner(s, key))
  {
    UpdateMovesOne(s, key);
    OneForward(s, AfterUpdateOwner(s, key), key);
  }

  ghost predicate OneMoved(s: State, t: State, key: Key) {
    || t.owners == s.owners
    || (&& key in s.owners && key in t.owners && t.owners == s.owners[key := t.owners[key]]
        && OwnedAs(s.owners, key, t.owners[key].meta.uid) && OwnerForward(s.owners[key], t.owners[key]))
  }

  lemma OneForward(s: State, t: State, key: Key)
    requires OneMoved(s, t, key) && t.log.home == s.log.home
    ensures OwnersForward(s, t)
  {
  }

  lemma UpdateMovesOne(s: State, key: Key)
    requires Front(s) && CanUpdateOwner(s, key)
    ensures OneMoved(s, AfterUpdateOwner(s, key), key) && AfterUpdateOwner(s, key).log.home == s.log.home
  {
    OwnerHeld(s, key);
    if key in s.owners {
      assert OwnerOk(s.log, key, s.owners[key]);
    }
  }

  lemma StepObserves(s: State, a: Action)
    requires Front(s) && Enabled(s, a)
    ensures OwnersForward(s, Apply(s, a))
  {
    if a.UpdateOwner? {
      UpdateForward(s, a.key);
    } else if a.CreateOwner? || a.EditSpec? || a.TouchOwner? || a.DeleteOwner? {
      EditForward(s, a);
    } else {
      OwnersUntouched(s, a);
      LogUntouched(s, a);
    }
  }

  lemma StepKeepsOrder(s: State, a: Action)
    requires Base(s) && Enabled(s, a)
    ensures OwnersForward(s, Apply(s, a)) && Base(Apply(s, a))
  {
    StepObserves(s, a);
    StepBase(s, a);
  }

  lemma {:induction false} RunObserves(s: State, run: seq<Action>, k: Key, uid: Uid, freshReads: bool)
    requires Base(s) && CanRun(s, run, freshReads) && uid in s.log.home
    ensures OwnedAs(s.owners, k, uid) && OwnedAs(Final(s, run, freshReads).owners, k, uid) ==>
              OwnerForward(s.owners[k], Final(s, run, freshReads).owners[k])
    ensures !OwnedAs(s.owners, k, uid) ==> !OwnedAs(Final(s, run, freshReads).owners, k, uid)
    decreases |run|
  {
    if run != [] {
      StepKeepsOrder(s, run[0]);
      RunObserves(Apply(s, run[0]), run[1..], k, uid, freshReads);
    }
  }

  /** Along every run an owner's observed generation never goes back. */
  lemma ObservedNeverDecreases(s: State, t: State, k: Key, freshReads: bool)
    requires Reachable(s, freshReads) && Leads(s, t, freshReads)
    requires k in s.owners && k in t.owners && s.owners[k].meta.uid == t.owners[k].meta.uid
    ensures s.owners[k].status.observedGeneration <= t.owners[k].status.observedGeneration
    ensures s.owners[k].meta.generation <= t.owners[k].meta.generation
  {
    ReachableBase(s, freshReads);
    assert OwnerOk(s.log, k, s.owners[k]);
    var run :| CanRun(s, run, freshReads) && Final(s, run, freshReads) == t;
    RunObserves(s, run, k, s.owners[k].meta.uid, freshReads);
  }

  // ---------- jobs ----------

  /** With fresh reads no execution ever owns two Jobs. */
  lemma SingleJobPerExecution(s: State, k: Key, l: Key)
    requires Reachable(s, true) && k in s.jobs && l in s.jobs && Siblings(s.jobs[k].meta, s.jobs[l].meta)
    ensures k == l
  {
    ReachableStrong(s);
    assert JobOk(s.log.made, s.log.specs, k, s.jobs[k]) && JobOk(s.log.made, s.log.specs, l, s.jobs[l]);
    assert MadeJobOk(s.log.home, s.log.newest, k, s.jobs[k].meta)
           && MadeJobOk(s.log.home, s.log.newest, l, s.jobs[l].meta);
  }

  /** A Job does what the execution it belongs to says, with a module once stored under the name that one gives. */
  lemma JobFollowsExecution(s: State, k: Key, l: Key, freshReads: bool)
    requires Reachable(s, freshReads) && k in s.executions && l in s.jobs
    requires ControlledBy(s.jobs[l].meta, s.executions[k].meta.uid)
    ensures var spec, j := s.executions[k].spec, s.jobs[l].spec;
            && BuiltTo(spec, j) && FromModule(s.log.specs, j)
            && Home(s.log.home, j.moduleUid, Key(ModuleKind, spec.moduleRef.ns, spec.moduleRef.name))
  {
    ReachableBase(s, freshReads);
    assert JobOk(s.log.made, s.log.specs, l, s.jobs[l]);
    assert BuiltFor(s.log.home, s.executions[k], s.jobs[l].spec);
  }

  /**
   * A Job of an execution made for a module was built from a spec once stored for that module's name;
   * and when it was the same module, from a generation no older than the execution's.
   */
  lemma JobProvenance(s: State, k: Key, l: Key, freshReads: bool)
    requires Reachable(s, freshReads) && k in s.executions && l in s.jobs
    requires ControlledBy(s.jobs[l].meta, s.executions[k].meta.uid)
    requires s.executions[k].meta.controller.Some? && s.executions[k].meta.controller.value.kind == ModuleKind
    ensures var e, j := s.executions[k], s.jobs[l].spec;
            && BuiltTo(e.spec, j) && FromModule(s.log.specs, j)
            && Home(s.log.home, j.moduleUid, ControllerKey(e.meta))
            && (j.moduleUid == e.meta.controller.value.uid ==> Stamp(e) <= j.moduleGeneration)
  {
    ReachableBase(s, freshReads);
    assert ExecOk(s.log, k, s.executions[k]);
    assert JobOk(s.log.made, s.log.specs, l, s.jobs[l]);
    assert BuiltFor(s.log.home, s.executions[k], s.jobs[l].spec);
  }

  /** The builder reads the execution's own module exactly when that module has not been replaced. */
  lemma BuilderReadsOwnModule(s: State, key: Key, freshReads: bool)
    requires Reachable(s, freshReads) && CanReadModule(s, key)
    requires s.flights[key].exec.meta.controller.Some?
    requires s.flights[key].exec.meta.controller.value.kind == ModuleKind
    ensures var x := s.flights[key].exec;
            var m := AfterReadModule(s, key).flights[key].mod;
            && m.meta.uid == x.meta.controller.value.uid <==>
               (exists o :: o in s.owners && s.owners[o].meta.uid == x.meta.controller.value.uid)
  {
    ReachableBase(s, freshReads);
    var x := s.flights[key].exec;
    assert FlightOk(s.log, s.owners, s.executions, key, s.flights[key]);
    assert ModuleKeyOf(x.spec) == ControllerKey(x.meta);
    OwnerAtHome(s, ModuleKeyOf(x.spec), x.meta.controller.value.uid);
  }

  lemma OwnerAtHome(s: State, key: Key, uid: Uid)
    requires Front(s) && Home(s.log.home, uid, key)
    ensures forall o :: o in s.owners && s.owners[o].meta.uid == uid ==> o == key
  {
    forall o | o in s.owners && s.owners[o].meta.uid == uid ensures o == key {
      assert OwnerOk(s.log, o, s.owners[o]);
    }
  }

  /** However old the lists: an execution that once had a Job always keeps the newest one made for it. */
  lemma NewestJobSurvives(s: State, k: Key, freshReads: bool)
    requires Reachable(s, freshReads) && k in s.executions && s.executions[k].meta.uid in s.log.newest
    ensures var m := s.log.newest[s.executions[k].meta.uid];
            && m.key in s.jobs && s.jobs[m.key].meta == m && ControlledBy(m, s.executions[k].meta.uid)
    ensures forall l :: l in s.jobs && ControlledBy(s.jobs[l].meta, s.executions[k].meta.uid) ==>
              s.jobs[l].meta.created <= s.log.newest[s.executions[k].meta.uid].created
  {
    ReachableBase(s, freshReads);
    assert HasJob(s.log.newest, s.jobs, s.executions[k].meta.uid);
    NoneNewer(s.log, s.jobs, s.executions[k].meta.uid);
  }

  lemma NoneNewer(log: Log, jobs: Jobs, u: Uid)
    requires JobsOk(log.made, log.specs, jobs) && MadeOk(log.home, log.made, log.newest) && u in log.newest
    ensures forall l :: l in jobs && ControlledBy(jobs[l].meta, u) ==> jobs[l].meta.created <= log.newest[u].created
  {
    forall l | l in jobs && ControlledBy(jobs[l].meta, u) ensures jobs[l].meta.created <= log.newest[u].created {
      assert JobOk(log.made, log.specs, l, jobs[l]);
      assert MadeJobOk(log.home, log.newest, l, jobs[l].meta);
    }
  }

  lemma ReachableHistory(s: State, key: Key, freshReads: bool)
    requires Reachable(s, freshReads) && key in s.flights
    ensures FlightOk(s.log, s.owners, s.executions, key, s.flights[key])
    ensures MadeOk(s.log.home, s.log.made, s.log.newest) && NewestOk(s.log.home, s.log.made, s.log.newest)
  {
    ReachableBase(s, freshReads);
  }

  lemma PruneRemoves(s: State, key: Key)
    requires CanPrune(s, key)
    ensures AfterPruneJob(s, key, true).jobs == s.jobs - {s.flights[key].stale[0].meta.key}
  {
  }

  /** However old its list, a reconcile never deletes the newest Job made for any execution. */
  lemma PruneSparesNewest(s: State, key: Key, freshReads: bool)
    requires Reachable(s, freshReads) && CanPrune(s, key)
    ensures forall u :: u in s.log.newest && s.log.newest[u].key in s.jobs ==>
              s.log.newest[u].key in AfterPruneJob(s, key, true).jobs
  {
    ReachableHistory(s, key, freshReads);
    PruneKeeps(s.log, s.owners, s.executions, key, s.flights[key]);
    PruneRemoves(s, key);
  }
}
