/** Every action keeps what Front says of owners, executions and the reconciles in flight. */
module FrontSteps {
  import opened Basics
  import opened Objects
  import opened Decisions
  import opened Protocol
  import opened Invariants

  lemma TickFront(s: State)
    requires Front(s)
    ensures Front(s.(now := s.now + 1))
  {
  }

  /** More keys may always be dirty. */
  lemma MoreDirty(s: State, dirty: set<Key>)
    requires Front(s) && s.dirty <= dirty
    ensures Front(s.(dirty := dirty))
  {
  }

  /** The reconcile of key moves on. */
  lemma MoveFlight(s: State, key: Key, f: Flight)
    requires Front(s)
    requires FlightOk(s.log, s.owners, s.executions, key, f)
    requires key in s.owners && key !in s.dirty ==> OwnerAwake(s.executions, s.owners[key], Some(f))
    ensures Front(SetFlight(s, key, f))
  {
  }

  lemma RestartFront(s: State)
    requires Front(s)
    ensures Front(AfterRestart(s))
  {
  }

  // ---------- history grows ----------

  ghost predicate LogGrows(a: Log, b: Log) {
    && a.version <= b.version
    && (forall u :: u in a.home ==> u in b.home && b.home[u] == a.home[u])
    && (forall p :: p in a.specs ==> p in b.specs && b.specs[p] == a.specs[p])
    && (forall k :: k in a.made ==> k in b.made && b.made[k] == a.made[k])
    && (forall u :: u in a.newest ==>
          u in b.newest && (b.newest[u] == a.newest[u] || a.newest[u].created < b.newest[u].created))
  }

  lemma UsedGrows(a: Log, b: Log, key: Key)
    requires LogGrows(a, b) && Used(a.home, key)
    ensures Used(b.home, key)
  {
    var u :| u in a.home && a.home[u] == key;
    assert u in b.home && b.home[u] == key;
  }

  lemma OwnersGrow(a: Log, b: Log, owners: Owners, executions: Executions)
    requires LogGrows(a, b) && OwnersOk(a, owners) && NamesOk(a, owners, executions)
    ensures OwnersOk(b, owners) && NamesOk(b, owners, executions)
  {
    forall k | k in owners ensures NameOk(b, executions, owners[k]) {
      if owners[k].status.lastExecution != "" {
        UsedGrows(a, b, Key(ExecutionKind, k.ns, owners[k].status.lastExecution));
      }
    }
  }

  lemma ExecutionsGrow(a: Log, b: Log, executions: Executions)
    requires LogGrows(a, b) && ExecutionsOk(a, executions)
    ensures ExecutionsOk(b, executions)
  {
  }

  lemma FlightGrows(a: Log, b: Log, owners: Owners, executions: Executions, k: Key, f: Flight)
    requires LogGrows(a, b) && FlightOk(a, owners, executions, k, f)
    ensures FlightOk(b, owners, executions, k, f)
  {
    match f
    case OwnerListed(o, last) =>
      if last.Some? {
        UsedGrows(a, b, last.value.meta.key);
      }
    case ExecJob(x, latest, stale) =>
      forall i | 0 <= i < |stale| ensures StaleOk(b.made, x, latest, stale[i]) {
        assert StaleOk(a.made, x, latest, stale[i]);
      }
    case _ =>
  }

  /** History grows: nothing said of owners, executions and reconciles is lost. */
  lemma GrowLog(s: State, log: Log)
    requires Front(s) && LogGrows(s.log, log)
    ensures Front(s.(log := log))
  {
    OwnersGrow(s.log, log, s.owners, s.executions);
    ExecutionsGrow(s.log, log, s.executions);
    forall k | k in s.flights ensures FlightOk(log, s.owners, s.executions, k, s.flights[k]) {
      FlightGrows(s.log, log, s.owners, s.executions, k, s.flights[k]);
    }
  }

  // ---------- owners ----------

  lemma DeleteOwnerFront(s: State, key: Key)
    requires Front(s) && SpecsOk(s.log, s.owners) && key in s.owners
    ensures Front(AfterDeleteOwner(s, key))
  {
  }

  /** An owner is stored: new, edited, touched or with a new status. Its key is already dirty. */
  lemma StoreOwner(s: State, o: Owner)
    requires Front(s) && o.meta.key in s.dirty
    requires OwnerOk(s.log, o.meta.key, o) && NameOk(s.log, s.executions, o)
    requires ChildrenUpTo(s.executions, o.meta.uid, o.meta.generation)
    requires o.meta.key in s.flights ==>
               FlightOk(s.log, s.owners[o.meta.key := o], s.executions, o.meta.key, s.flights[o.meta.key])
    ensures Front(s.(owners := s.owners[o.meta.key := o]))
  {
    FlightsSeeStore(s.log, s.owners, s.executions, o, s.flights);
  }

  lemma FlightsSeeStore(log: Log, owners: Owners, executions: Executions, o: Owner, flights: map<Key, Flight>)
    requires FlightsOk(log, owners, executions, flights)
    requires o.meta.key in flights ==>
               FlightOk(log, owners[o.meta.key := o], executions, o.meta.key, flights[o.meta.key])
    ensures FlightsOk(log, owners[o.meta.key := o], executions, flights)
  {
    forall k | k in flights ensures FlightOk(log, owners[o.meta.key := o], executions, k, flights[k]) {
      assert FlightOk(log, owners, executions, k, flights[k]);
    }
  }

  /** An owner is written with the next version, and its key becomes dirty. */
  lemma WriteOwner(s: State, o: Owner, log: Log)
    requires Front(s) && LogGrows(s.log, log) && o.meta.version == s.log.version
    requires OwnerOk(log, o.meta.key, o) && NameOk(log, s.executions, o)
    requires ChildrenUpTo(s.executions, o.meta.uid, o.meta.generation)
    requires o.meta.uid !in s.log.home || (o.meta.key in s.owners && s.owners[o.meta.key].meta.uid == o.meta.uid
               && s.owners[o.meta.key].meta.generation <= o.meta.generation)
    ensures Front(s.(owners := s.owners[o.meta.key := o], dirty := s.dirty + {o.meta.key}, log := log))
  {
    Prepare(s, {o.meta.key}, log);
    if o.meta.key in s.flights {
      FlightSeesNewer(s.log, log, s.owners, s.executions, o, s.flights[o.meta.key]);
    }
    StoreOwner(s.(dirty := s.dirty + {o.meta.key}, log := log), o);
  }

  /** The reconcile of a key sees its owner replaced by one with a version it cannot hold yet. */
  lemma FlightSeesNewer(a: Log, b: Log, owners: Owners, executions: Executions, o: Owner, f: Flight)
    requires LogGrows(a, b) && o.meta.version == a.version
    requires o.meta.uid !in a.home || (o.meta.key in owners && owners[o.meta.key].meta.uid == o.meta.uid
               && owners[o.meta.key].meta.generation <= o.meta.generation)
    requires FlightOk(a, owners, executions, o.meta.key, f)
    ensures FlightOk(b, owners[o.meta.key := o], executions, o.meta.key, f)
  {
    FlightGrows(a, b, owners, executions, o.meta.key, f);
  }

  lemma NoChildrenYet(log: Log, executions: Executions, uid: Uid)
    requires ExecutionsOk(log, executions) && uid !in log.home
    ensures forall l :: l in executions ==> !ControlledBy(executions[l].meta, uid)
  {
  }

  lemma CreateOwnerFront(s: State, key: Key, uid: Uid, spec: OwnerSpec)
    requires Front(s) && SpecsOk(s.log, s.owners) && CanCreateOwner(s, key, uid, spec)
    ensures Front(AfterCreateOwner(s, key, uid, spec))
  {
    var o := Object(Meta(key, uid, None, s.now, 1, s.log.version, map[]), spec, NO_OWNER_STATUS);
    var log := Bump(s.log).(home := s.log.home[uid := key], specs := s.log.specs[(uid, 1) := spec]);
    assert LogGrows(s.log, log);
    NoChildrenYet(s.log, s.executions, uid);
    WriteOwner(s, o, log);
  }

  lemma MoreChildren(executions: Executions, uid: Uid, bound: int, more: int)
    requires ChildrenUpTo(executions, uid, bound) && bound <= more
    ensures ChildrenUpTo(executions, uid, more)
  {
  }

  /** A spec the log has not seen: the next generation of a stored owner. */
  lemma NextSpec(log: Log, owners: Owners, key: Key, spec: OwnerSpec) returns (more: Log)
    requires SpecsOk(log, owners) && key in owners
    ensures var p := (owners[key].meta.uid, owners[key].meta.generation + 1);
            more == Bump(log).(specs := log.specs[p := spec]) && LogGrows(log, more)
  {
    var p := (owners[key].meta.uid, owners[key].meta.generation + 1);
    more := Bump(log).(specs := log.specs[p := spec]);
    assert p !in log.specs;
  }

  /** The owner edited: everything it needs to be stored. */
  lemma EditedOk(s: State, o: Owner, before: Owner, log: Log)
    requires Front(s) && before.meta.key in s.owners && s.owners[before.meta.key] == before
    requires log == Bump(s.log).(specs := s.log.specs[(o.meta.uid, o.meta.generation) := o.spec])
    requires LogGrows(s.log, log) && (o.spec.ModuleSpec? <==> before.spec.ModuleSpec?)
    requires o.status == before.status
    requires o.meta == before.meta.(generation := before.meta.generation + 1, version := s.log.version)
    ensures OwnerOk(log, o.meta.key, o) && NameOk(log, s.executions, o)
    ensures ChildrenUpTo(s.executions, o.meta.uid, o.meta.generation)
  {
    assert OwnerOk(s.log, before.meta.key, before);
    MoreChildren(s.executions, o.meta.uid, before.meta.generation, o.meta.generation);
    NameGrows(s.log, log, s.executions, before, o);
  }

  lemma NameGrows(a: Log, b: Log, executions: Executions, o: Owner, after: Owner)
    requires LogGrows(a, b) && NameOk(a, executions, o)
    requires after.meta.key == o.meta.key && after.meta.uid == o.meta.uid && after.status == o.status
    ensures NameOk(b, executions, after)
  {
    if o.status.lastExecution != "" {
      UsedGrows(a, b, Key(ExecutionKind, o.meta.key.ns, o.status.lastExecution));
    }
  }

  lemma OwnerAtKey(s: State, key: Key)
    requires Front(s) && key in s.owners
    ensures s.owners[key].meta.key == key && (key.kind == ModuleKind <==> s.owners[key].spec.ModuleSpec?)
  {
    assert OwnerOk(s.log, key, s.owners[key]);
  }

  lemma EditSpecFront(s: State, key: Key, spec: OwnerSpec)
    requires Front(s) && SpecsOk(s.log, s.owners) && CanEditSpec(s, key, spec)
    ensures Front(AfterEditSpec(s, key, spec))
  {
    var before := s.owners[key];
    var o := Object(before.meta.(generation := before.meta.generation + 1, version := s.log.version), spec,
        before.status);
    OwnerAtKey(s, key);
    var log := NextSpec(s.log, s.owners, key, spec);
    WriteEdited(s, o, before, log);
  }

  lemma WriteEdited(s: State, o: Owner, before: Owner, log: Log)
    requires Front(s) && before.meta.key in s.owners && s.owners[before.meta.key] == before
    requires log == Bump(s.log).(specs := s.log.specs[(o.meta.uid, o.meta.generation) := o.spec])
    requires LogGrows(s.log, log) && (o.spec.ModuleSpec? <==> before.spec.ModuleSpec?)
    requires o.status == before.status
    requires o.meta == before.meta.(generation := before.meta.generation + 1, version := s.log.version)
    ensures Front(s.(owners := s.owners[o.meta.key := o], dirty := s.dirty + {o.meta.key}, log := log))
  {
    EditedOk(s, o, before, log);
    WriteOwner(s, o, log);
  }

  /** A status written over the stored owner, or nothing but a new version. */
  lemma PutOwnerFront(s: State, o: Owner)
    requires Front(s)
    requires o.meta.key in s.owners && s.owners[o.meta.key].(status := o.status) == o
    requires 0 <= o.status.observedGeneration <= o.meta.generation
    requires NameOk(s.log, s.executions, o)
    ensures Front(PutOwner(s, o))
  {
    var o' := o.(meta := o.meta.(version := s.log.version));
    assert OwnerOk(s.log, o.meta.key, s.owners[o.meta.key]);
    NameGrows(s.log, Bump(s.log), s.executions, o, o');
    WriteOwner(s, o', Bump(s.log));
  }

  // ---------- executions ----------

  predicate SameChild(a: Execution, b: Execution) {
    && a.meta.key == b.meta.key && a.meta.uid == b.meta.uid && a.meta.controller == b.meta.controller
    && a.meta.created == b.meta.created && a.meta.annotations == b.meta.annotations && a.spec == b.spec
  }

  lemma SameChildSame(log: Log, a: Execution, b: Execution)
    requires SameChild(a, b)
    ensures Stamp(a) == Stamp(b) && (ChildOk(log, a) ==> ChildOk(log, b))
  {
  }

  /** Executions may go, or change in status and version. */
  ghost predicate Subset(executions: Executions, smaller: Executions) {
    forall k :: k in smaller ==> k in executions && SameChild(executions[k], smaller[k])
  }

  lemma FewerChildren(executions: Executions, smaller: Executions, uid: Uid, bound: int)
    requires Subset(executions, smaller) && ChildrenUpTo(executions, uid, bound)
    ensures ChildrenUpTo(smaller, uid, bound)
  {
    forall l | l in smaller && ControlledBy(smaller[l].meta, uid) ensures Stamp(smaller[l]) <= bound {
      assert SameChild(executions[l], smaller[l]);
    }
  }

  lemma FewerExecutions(log: Log, owners: Owners, executions: Executions, smaller: Executions)
    requires Subset(executions, smaller)
    requires StampsOrdered(executions) && StampsBounded(owners, executions) && NamesOk(log, owners, executions)
    ensures StampsOrdered(smaller) && StampsBounded(owners, smaller) && NamesOk(log, owners, smaller)
  {
    forall k, l | k in smaller && l in smaller && k != l ensures Ordered(smaller[k], smaller[l]) {
      assert SameChild(executions[k], smaller[k]) && SameChild(executions[l], smaller[l]);
      assert Ordered(executions[k], executions[l]);
    }
    forall k | k in owners ensures ChildrenUpTo(smaller, owners[k].meta.uid, owners[k].meta.generation) {
      FewerChildren(executions, smaller, owners[k].meta.uid, owners[k].meta.generation);
    }
    forall k | k in owners ensures NameOk(log, smaller, owners[k]) {
      assert NameOk(log, executions, owners[k]);
      forall l | l in smaller ensures SameChild(executions[l], smaller[l]) {}
    }
  }

  ghost predicate SameElsewhere(a: Executions, b: Executions, key: Key) {
    forall k :: k != key ==> (k in a <==> k in b) && (k in a ==> a[k] == b[k])
  }

  /** An owner that controls neither the old nor the new object at key has the same newest child. */
  lemma NewestFrame(a: Executions, b: Executions, key: Key, uid: Uid)
    requires SameElsewhere(a, b, key)
    requires key in a ==> !ControlledBy(a[key].meta, uid)
    requires key in b ==> !ControlledBy(b[key].meta, uid)
    ensures forall last :: IsNewest(a, uid, last) <==> IsNewest(b, uid, last)
  {
    forall last ensures IsNewest(a, uid, last) <==> IsNewest(b, uid, last) {
      if last.Some? {
        assert last.value.meta.key != key ==> (last.value.meta.key in a <==> last.value.meta.key in b);
      }
    }
  }

  /** An owner that is not dirty controls no execution whose events have all been delivered. */
  lemma NotOurs(s: State, k: Key, e: Execution)
    requires Front(s) && k in s.owners && k !in s.dirty && ChildOk(s.log, e) && Wakes(e.meta) <= s.dirty
    ensures !ControlledBy(e.meta, s.owners[k].meta.uid)
  {
    assert OwnerOk(s.log, k, s.owners[k]);
    assert e.meta.controller.Some? ==> ControllerKey(e.meta) in Wakes(e.meta);
  }

  lemma AwakeFrame(s: State, executions: Executions, key: Key)
    requires Front(s) && SameElsewhere(s.executions, executions, key)
    requires key in s.executions ==> Wakes(s.executions[key].meta) <= s.dirty
    requires key in executions ==> Wakes(executions[key].meta) <= s.dirty && ChildOk(s.log, executions[key])
    ensures OwnersAwake(s.owners, executions, s.dirty, s.flights)
  {
    forall k | k in s.owners && k !in s.dirty
      ensures OwnerAwake(executions, s.owners[k], FlightAt(s.flights, k))
    {
      if key in s.executions { NotOurs(s, k, s.executions[key]); }
      if key in executions { NotOurs(s, k, executions[key]); }
      NewestFrame(s.executions, executions, key, s.owners[k].meta.uid);
      assert OwnerAwake(s.executions, s.owners[k], FlightAt(s.flights, k));
    }
  }

  lemma FlightFewer(log: Log, owners: Owners, executions: Executions, smaller: Executions, k: Key, f: Flight)
    requires Subset(executions, smaller) && FlightOk(log, owners, executions, k, f)
    requires k in executions <==> k in smaller
    requires k in executions ==> executions[k] == smaller[k]
    ensures FlightOk(log, owners, smaller, k, f)
  {
    match f
    case OwnerGot(o) => FewerChildren(executions, smaller, o.meta.uid, o.meta.generation);
    case OwnerListed(o, last) =>
      FewerChildren(executions, smaller, o.meta.uid, o.meta.generation);
      if Decide(o, last).CreateRun? {
        FewerChildren(executions, smaller, o.meta.uid, o.meta.generation - 1);
      }
    case _ =>
  }

  /** One execution goes, or changes in status and version. The keys it concerns are already dirty. */
  lemma ChangeExecution(s: State, key: Key, smaller: Executions)
    requires Front(s) && key in s.executions && Wakes(s.executions[key].meta) <= s.dirty
    requires SameElsewhere(s.executions, smaller, key)
    requires key in smaller ==> SameChild(s.executions[key], smaller[key]) && smaller[key].meta.version < s.log.version
    requires key in s.flights ==> FlightOk(s.log, s.owners, smaller, key, s.flights[key])
    ensures Front(s.(executions := smaller))
  {
    assert Subset(s.executions, smaller);
    FewerExecutions(s.log, s.owners, s.executions, smaller);
    ChangedOk(s.log, s.executions, key, smaller);
    FlightsFewer(s.log, s.owners, s.executions, key, smaller, s.flights);
    AwakeFrame(s, smaller, key);
  }

  lemma ChangedOk(log: Log, executions: Executions, key: Key, smaller: Executions)
    requires ExecutionsOk(log, executions) && key in executions && SameElsewhere(executions, smaller, key)
    requires key in smaller ==> SameChild(executions[key], smaller[key]) && smaller[key].meta.version < log.version
    ensures ExecutionsOk(log, smaller)
  {
    if key in smaller {
      assert ExecOk(log, key, executions[key]);
      SameChildSame(log, executions[key], smaller[key]);
    }
  }

  lemma FlightsFewer(
      log: Log, owners: Owners, executions: Executions, key: Key, smaller: Executions, flights: map<Key, Flight>)
    requires FlightsOk(log, owners, executions, flights)
    requires Subset(executions, smaller) && SameElsewhere(executions, smaller, key)
    requires key in flights ==> FlightOk(log, owners, smaller, key, flights[key])
    ensures FlightsOk(log, owners, smaller, flights)
  {
    forall k | k in flights ensures FlightOk(log, owners, smaller, k, flights[k]) {
      if k != key {
        FlightFewer(log, owners, executions, smaller, k, flights[k]);
      }
    }
  }

  lemma DeleteExecutionFront(s: State, key: Key)
    requires Front(s) && key in s.executions
    ensures Front(AfterDeleteExecution(s, key))
  {
    var t := s.(dirty := s.dirty + Wakes(s.executions[key].meta));
    MoreDirty(s, t.dirty);
    var smaller := s.executions - {key};
    assert ExecOk(s.log, key, s.executions[key]);
    if key in s.flights {
      assert FlightOk(s.log, s.owners, s.executions, key, s.flights[key]);
      assert !s.flights[key].OwnerGot? && !s.flights[key].OwnerListed?;
    }
    ChangeExecution(t, key, smaller);
  }

  /** An execution is written again with its own metadata and spec, as a touch or a status update. */
  lemma PutExecutionFront(s: State, e: Execution)
    requires Front(s) && e.meta.key in s.executions && SameChild(s.executions[e.meta.key], e)
    requires e.meta.key in s.flights ==> s.flights[e.meta.key].Ended? || e == s.executions[e.meta.key]
    ensures Front(PutExecution(s, e))
  {
    var key, log := e.meta.key, Bump(s.log);
    Prepare(s, Wakes(e.meta), log);
    var smaller := s.executions[key := e.(meta := e.meta.(version := s.log.version))];
    PutSeen(s, e);
    ChangeExecution(s.(dirty := s.dirty + Wakes(e.meta), log := log), key, smaller);
  }

  lemma PutSeen(s: State, e: Execution)
    requires Front(s) && e.meta.key in s.executions
    requires e.meta.key in s.flights ==> s.flights[e.meta.key].Ended? || e == s.executions[e.meta.key]
    ensures var smaller := s.executions[e.meta.key := e.(meta := e.meta.(version := s.log.version))];
            e.meta.key in s.flights ==>
              FlightOk(Bump(s.log), s.owners, smaller, e.meta.key, s.flights[e.meta.key])
  {
    assert ExecOk(s.log, e.meta.key, s.executions[e.meta.key]);
    if e.meta.key in s.flights && !s.flights[e.meta.key].Ended? {
      FlightSeesTouch(s.log, Bump(s.log), s.owners, s.executions, e, s.flights[e.meta.key]);
    }
  }

  /** The reconcile of an execution sees a new version of it. */
  lemma FlightSeesTouch(a: Log, b: Log, owners: Owners, executions: Executions, e: Execution, f: Flight)
    requires b == Bump(a) && e.meta.key in executions && executions[e.meta.key] == e && e.meta.key.kind == ExecutionKind
    requires FlightOk(a, owners, executions, e.meta.key, f)
    ensures FlightOk(b, owners, executions[e.meta.key := e.(meta := e.meta.(version := a.version))], e.meta.key, f)
  {
    FlightGrows(a, b, owners, executions, e.meta.key, f);
  }

  ghost predicate NewestSibling(executions: Executions, e: Execution) {
    forall l :: l in executions && Siblings(executions[l].meta, e.meta) ==>
      executions[l].meta.created < e.meta.created && Stamp(executions[l]) < Stamp(e)
  }

  lemma AddStamps(executions: Executions, e: Execution)
    requires StampsOrdered(executions) && NewestSibling(executions, e)
    ensures StampsOrdered(executions[e.meta.key := e])
  {
    var more := executions[e.meta.key := e];
    forall k, l | k in more && l in more && k != l ensures Ordered(more[k], more[l]) {
      if k != e.meta.key && l != e.meta.key {
        assert Ordered(executions[k], executions[l]);
      }
    }
  }

  lemma AddForOwner(log: Log, executions: Executions, e: Execution, o: Owner)
    requires ChildrenUpTo(executions, o.meta.uid, o.meta.generation) && NameOk(log, executions, o)
    requires ControlledBy(e.meta, o.meta.uid) ==>
               Stamp(e) <= o.meta.generation
                   && (o.status.lastExecution == "" || o.status.lastExecution != e.meta.key.name)
    ensures ChildrenUpTo(executions[e.meta.key := e], o.meta.uid, o.meta.generation)
    ensures NameOk(log, executions[e.meta.key := e], o)
  {
  }

  /**
   * A new execution is stored: a loose one, or one made for an owner by that owner's own reconcile.
   * All it needs of its siblings is that it is later and for a higher generation.
   */
  lemma AddExecution(s: State, e: Execution)
    requires Front(s) && e.meta.key !in s.executions && Wakes(e.meta) <= s.dirty
    requires ExecOk(s.log, e.meta.key, e)
    requires NewestSibling(s.executions, e)
    requires e.meta.controller.Some? ==> Unclaimed(s, e)
    requires e.meta.key in s.flights ==>
               FlightOk(s.log, s.owners, s.executions[e.meta.key := e], e.meta.key, s.flights[e.meta.key])
    ensures Front(s.(executions := s.executions[e.meta.key := e]))
  {
    var more := s.executions[e.meta.key := e];
    AddStamps(s.executions, e);
    forall k | k in s.owners
      ensures ChildrenUpTo(more, s.owners[k].meta.uid, s.owners[k].meta.generation)
      ensures NameOk(s.log, more, s.owners[k])
    {
      assert OwnerOk(s.log, k, s.owners[k]);
      AddForOwner(s.log, s.executions, e, s.owners[k]);
    }
    forall k | k in s.flights ensures FlightOk(s.log, s.owners, more, k, s.flights[k]) {
      if k != e.meta.key {
        FlightAdds(s.log, s.owners, s.executions, e, k, s.flights[k]);
      }
    }
    AwakeFrame(s, more, e.meta.key);
  }

  /** No stored owner and no reconcile in flight has claims about children that e would break. */
  ghost predicate Unclaimed(s: State, e: Execution)
    requires e.meta.controller.Some?
  {
    var k := ControllerKey(e.meta);
    && IsOwnerKind(k.kind)
    && (k in s.flights ==> s.flights[k].Ended?)
    && (k in s.owners && ControlledBy(e.meta, s.owners[k].meta.uid) ==>
          Stamp(e) <= s.owners[k].meta.generation
          && (s.owners[k].status.lastExecution == "" || s.owners[k].status.lastExecution != e.meta.key.name))
  }

  lemma FlightAdds(log: Log, owners: Owners, executions: Executions, e: Execution, k: Key, f: Flight)
    requires FlightOk(log, owners, executions, k, f) && ChildOk(log, e)
    requires k != e.meta.key && (e.meta.controller.Some? && k == ControllerKey(e.meta) ==> f.Ended?)
    ensures FlightOk(log, owners, executions[e.meta.key := e], k, f)
  {
    if f.OwnerGot? || f.OwnerListed? {
      assert OwnerOk(log, k, f.owner);
      assert !ControlledBy(e.meta, f.owner.meta.uid);
    }
  }

  /** The ids and the wake-ups of a write come before the write itself. */
  lemma Prepare(s: State, woken: set<Key>, log: Log)
    requires Front(s) && LogGrows(s.log, log)
    ensures Front(s.(dirty := s.dirty + woken, log := log))
  {
    GrowLog(s, log);
    MoreDirty(s.(log := log), s.dirty + woken);
  }

  lemma NewId(log: Log, uid: Uid, key: Key) returns (more: Log)
    requires uid !in log.home
    ensures more == Bump(log).(home := log.home[uid := key]) && LogGrows(log, more)
  {
    more := Bump(log).(home := log.home[uid := key]);
  }

  lemma CreateLooseFront(s: State, key: Key, uid: Uid, spec: ExecutionSpec, annotations: map<string, string>)
    requires Front(s) && CanCreateLoose(s, key, uid)
    ensures Front(AfterCreateLoose(s, key, uid, spec, annotations))
  {
    var e := Object(Meta(key, uid, None, s.now, 1, s.log.version, annotations), spec, NO_EXECUTION_STATUS);
    var log := NewId(s.log, uid, key);
    WriteLoose(s, e, log);
  }

  /** A new execution without an owner is written, and its key becomes dirty. */
  lemma WriteLoose(s: State, e: Execution, log: Log)
    requires Front(s) && LogGrows(s.log, log) && e.meta.uid !in s.log.home && e.meta.version == s.log.version
    requires e.meta.key !in s.executions && e.meta.controller.None? && ExecOk(log, e.meta.key, e)
    ensures Front(s.(executions := s.executions[e.meta.key := e], dirty := s.dirty + Wakes(e.meta), log := log))
  {
    Prepare(s, Wakes(e.meta), log);
    if e.meta.key in s.flights {
      FlightSeesNew(s.log, log, s.owners, s.executions, e, s.flights[e.meta.key]);
    }
    AddExecution(s.(dirty := s.dirty + Wakes(e.meta), log := log), e);
  }

  /** The reconcile of a key whose execution is gone sees another execution under its name. */
  lemma FlightSeesNew(a: Log, b: Log, owners: Owners, executions: Executions, e: Execution, f: Flight)
    requires LogGrows(a, b) && e.meta.uid !in a.home && e.meta.version == a.version
    requires e.meta.key.kind == ExecutionKind
    requires FlightOk(a, owners, executions, e.meta.key, f)
    ensures FlightOk(b, owners, executions[e.meta.key := e], e.meta.key, f)
  {
    FlightGrows(a, b, owners, executions, e.meta.key, f);
  }

  /** What the protocol needs to know of an execution made from the copy o of its owner. */
  ghost predicate MadeFor(o: Owner, e: Execution, uid: Uid, name: string, now: nat, version: nat) {
    && e.meta.key == Key(ExecutionKind, o.meta.key.ns, name) && e.meta.uid == uid
    && e.meta.created == now && e.meta.version == version
    && e.meta.controller == Some(ControllerRef(o.meta.key.kind, o.meta.key.name, o.meta.uid))
    && WellStamped(e) && Stamp(e) == o.meta.generation
    && e.spec == RunSpec(o.meta.key, o.spec)
    && e.meta.annotations == StampedAnnotations(o.meta.key.kind, o.spec.template.annotations, o.meta.generation)
  }

  lemma NewExecutionMade(o: Owner, uid: Uid, name: string, now: nat, version: nat)
    ensures MadeFor(o, NewExecution(o, uid, name, now, version), uid, name, now, version)
  {
    NewExecutionStamped(o, uid, name, now, version);
  }

  lemma CreateExecutionFront(s: State, key: Key, uid: Uid, name: string)
    requires Front(s) && CanCreateExecution(s, key, uid, name)
    ensures Front(AfterCreateExecution(s, key, uid, name))
  {
    var o := s.flights[key].owner;
    var e := NewExecution(o, uid, name, s.now, s.log.version);
    NewExecutionMade(o, uid, name, s.now, s.log.version);
    var log := NewId(s.log, uid, e.meta.key);
    CreatedFitsStore(s, key, e, uid, name, log);
    CreatedUnclaimed(s, key, e, uid, name);
    EndWoken(s, key, Wakes(e.meta), log);
    AddExecution(SetFlight(s.(dirty := s.dirty + Wakes(e.meta), log := log), key, Ended(Done)), e);
  }

  /** A reconcile may end when it wakes its own key. */
  lemma EndWoken(s: State, key: Key, woken: set<Key>, log: Log)
    requires Front(s) && LogGrows(s.log, log) && key in woken
    ensures Front(SetFlight(s.(dirty := s.dirty + woken, log := log), key, Ended(Done)))
  {
    Prepare(s, woken, log);
    MoveFlight(s.(dirty := s.dirty + woken, log := log), key, Ended(Done));
  }

  /** Why the execution a reconcile creates is later and newer than its siblings. */
  lemma CreatedFitsStore(s: State, key: Key, e: Execution, uid: Uid, name: string, log: Log)
    requires Front(s) && CanCreateExecution(s, key, uid, name)
    requires MadeFor(s.flights[key].owner, e, uid, name, s.now, s.log.version)
    requires log == Bump(s.log).(home := s.log.home[uid := e.meta.key]) && LogGrows(s.log, log)
    ensures ControllerKey(e.meta) == key && e.meta.key !in s.executions && ExecOk(log, e.meta.key, e)
    ensures NewestSibling(s.executions, e)
    ensures e.meta.key in s.flights ==>
              FlightOk(log, s.owners, s.executions[e.meta.key := e], e.meta.key, s.flights[e.meta.key])
  {
    assert FlightOk(s.log, s.owners, s.executions, key, s.flights[key]);
    assert OwnerOk(s.log, key, s.flights[key].owner);
    assert e.meta.key !in s.executions by {
      assert forall k :: k in s.executions ==> ExecOk(s.log, k, s.executions[k]);
    }
    if e.meta.key in s.flights {
      FlightSeesNew(s.log, log, s.owners, s.executions, e, s.flights[e.meta.key]);
    }
  }

  lemma CreatedUnclaimed(s: State, key: Key, e: Execution, uid: Uid, name: string)
    requires Front(s) && CanCreateExecution(s, key, uid, name)
    requires MadeFor(s.flights[key].owner, e, uid, name, s.now, s.log.version)
    ensures Unclaimed(SetFlight(s, key, Ended(Done)), e)
  {
    assert FlightOk(s.log, s.owners, s.executions, key, s.flights[key]);
    if key in s.owners {
      assert OwnerOk(s.log, key, s.owners[key]);
      assert NameOk(s.log, s.executions, s.owners[key]);
      var named := Key(ExecutionKind, key.ns, s.owners[key].status.lastExecution);
      assert s.owners[key].status.lastExecution != "" ==> Used(s.log.home, named);
      assert s.owners[key].status.lastExecution == name ==> named == e.meta.key;
    }
  }
}
