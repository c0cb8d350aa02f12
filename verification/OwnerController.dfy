/** The bodies of the module and stack reconcilers: which steps they take, and that these end the reconcile. */
module OwnerController {
  import opened Basics
  import opened Decimal
  import opened Objects
  import opened Decisions
  import opened Selection
  import opened Protocol
  import opened Invariants
  import opened BaseRuns
  import opened ApiServer

  /** The filter and the newest-first sort of the owner's List answer. */
  method LastExecution(c: Cluster, key: Key, o: Owner)
      returns (r: Reply<Option<Execution>>, ghost items: seq<Execution>)
    requires c.Working(key, None) && c.Polite(key) && c.At(key, OwnerGot(o))
    modifies c
    ensures !r.NotFound?
    ensures c.After(key, None, old(c.first), old(c.from), old(c.taken)
            + [if r.Fault? then Fail(key) else ListExecutions(key, items)])
    ensures r.Found? ==> r.value == Select(items, o.meta.uid) && c.At(key, OwnerListed(o, r.value))
    ensures (r.Fault? <==> c.fails(old(c.calls))) && (r.Fault? ==> c.At(key, Ended(Error)))
  {
    var answer := c.ListExecutions(key, o);
    if answer.Fault? {
      return Fault, [];
    }
    items := answer.value;
    var owned := OwnedNewestFirst(answer.value, o.meta.uid);
    if |owned| == 0 {
      return Found(None), items;
    }
    return Found(Some(owned[0])), items;
  }

  /** What a module's execution is created from: stamped, and pointed at the module whatever the template says. */
  method ModuleDraft(o: Owner) returns (d: ExecutionDraft)
    requires o.spec.ModuleSpec? && o.meta.key.kind == ModuleKind
    ensures DraftFor(o, d) && RunsFor(o.meta.key, o.spec, d.spec)
    ensures Annotated(ModuleKind, o.spec.template.annotations, o.meta.generation, d.annotations)
  {
    var spec := o.spec.template.spec;
    var annotations := o.spec.template.annotations;
    annotations := annotations[MODULE_STAMP := FormatInt(o.meta.generation)];
    spec := spec.(moduleRef := ModuleRef(o.meta.key.ns, o.meta.key.name));
    d := ExecutionDraft(o.meta.key.ns, ControllerRef(ModuleKind, o.meta.key.name, o.meta.uid), annotations, spec);
  }

  /** What a stack's execution is created from: its module reference, in the stack's namespace unless it names one. */
  method StackDraft(o: Owner) returns (d: ExecutionDraft)
    requires o.spec.StackSpec? && o.meta.key.kind == StackKind
    ensures DraftFor(o, d) && RunsFor(o.meta.key, o.spec, d.spec)
    ensures Annotated(StackKind, o.spec.template.annotations, o.meta.generation, d.annotations)
  {
    var spec := o.spec.template.spec;
    var annotations := o.spec.template.annotations;
    annotations := annotations[STACK_STAMP := FormatInt(o.meta.generation)];
    spec := spec.(moduleRef := o.spec.moduleRef);
    if spec.moduleRef.ns == "" {
      spec := spec.(moduleRef := spec.moduleRef.(ns := o.meta.key.ns));
    }
    d := ExecutionDraft(o.meta.key.ns, ControllerRef(StackKind, o.meta.key.name, o.meta.uid), annotations, spec);
  }

  /** Owners of this kind have specs of this kind. */
  predicate IsOwner(key: Key, o: Owner) {
    o.meta.key == key && IsOwnerKind(key.kind) && (key.kind == ModuleKind <==> o.spec.ModuleSpec?)
  }

  /** The server, meeting m with its n-th call, agrees to create an execution for o. */
  predicate Accepts(c: Cluster, n: nat, m: State, o: Owner) {
    !c.fails(n) && c.GrantsExecution(n, m, o.meta.key.ns, o.meta.uid)
  }

  /** Stores one new execution for the owner that was read, or fails. */
  method CreateRun(c: Cluster, key: Key, o: Owner, ghost last: Option<Execution>) returns (outcome: Outcome)
    requires c.Working(key, None) && c.Polite(key) && c.At(key, OwnerListed(o, last))
    requires Decide(o, last).CreateRun? && IsOwner(key, o)
    modifies c
    ensures var n := old(c.calls);
            var m := c.meanwhile(n, old(c.s));
            var e := NewExecution(o, c.grants(n).0, c.grants(n).1, m.now, m.log.version);
            var made := Accepts(c, n, m, o);
            var a := if made then CreateExecution(key, c.grants(n).0, c.grants(n).1) else Fail(key);
            && outcome == (if made then Done else Error)
            && c.After(key, None, old(c.first), old(c.from), old(c.taken) + [a])
            && c.s.executions == (if made then m.executions[e.meta.key := e] else m.executions)
            && RunsFor(key, o.spec, e.spec)
    ensures c.At(key, Ended(outcome))
  {
    RunSpecExactly(key, o.spec, RunSpec(key, o.spec));
    var d: ExecutionDraft;
    if o.meta.key.kind == ModuleKind {
      d := ModuleDraft(o);
    } else {
      d := StackDraft(o);
    }
    var created := c.CreateExecution(key, o, last, d);
    outcome := if created then Done else Error;
  }

  /** The owner's status already has the execution's name and phase. */
  predicate UpToDate(o: Owner, e: Execution) {
    o.status.lastExecution == e.meta.key.name && o.status.phase == e.status.phase
  }

  /** The owner as o, showing e and the generation of o, in a new version. */
  function Mirrored(o: Owner, e: Execution, version: nat): Owner {
    Object(o.meta.(version := version), o.spec, OwnerStatus(e.status.phase, o.meta.generation, e.meta.key.name))
  }

  /**
   * Copies name and phase when they differ, and only then the generation, and only then calls the server. A
   * conflict is swallowed: nothing is written, and the reconcile is done.
   */
  method UpdateStatus(c: Cluster, key: Key, o: Owner, e: Execution) returns (outcome: Outcome)
    requires c.Working(key, None) && c.Polite(key) && c.At(key, OwnerListed(o, Some(e))) && o.meta.key == key
    requires !Decide(o, Some(e)).CreateRun?
    modifies c
    ensures var a := if c.fails(old(c.calls)) then Fail(key) else UpdateOwner(key);
            c.After(key, None, old(c.first), old(c.from), old(c.taken) + [if UpToDate(o, e) then RestOwner(key) else a])
    ensures var m := c.meanwhile(old(c.calls), old(c.s));
            var sent := !UpToDate(o, e) && !c.fails(old(c.calls)) && key in m.owners;
            && outcome == (if sent || UpToDate(o, e) then Done else Error)
            && c.s.owners == if sent && OwnerCurrent(m, o) then m.owners[key := Mirrored(o, e, m.log.version)]
                             else m.owners
    ensures c.At(key, Ended(outcome))
  {
    var status := o.status;
    var changed := false;
    if status.lastExecution != e.meta.key.name {
      status := status.(lastExecution := e.meta.key.name);
      changed := true;
    }
    if status.phase != e.status.phase {
      status := status.(phase := e.status.phase);
      changed := true;
    }
    if changed {
      status := status.(observedGeneration := o.meta.generation);
      var r := c.UpdateOwnerStatus(key, o, Some(e), status);
      if r.Conflict? {
        return Done;
      }
      outcome := if r.Applied? then Done else Error;
    } else {
      c.Rest(key, o, Some(e));
      outcome := Done;
    }
  }

  /** There is no execution, or it has finished and its stamp is not the text of the owner's generation. */
  predicate WantsRun(o: Owner, last: Option<Execution>) {
    last.Some? ==>
      && StampText(o.meta.key.kind, last.value) != FormatInt(o.meta.generation)
      && (last.value.status.phase == Succeeded || last.value.status.phase == Failed)
  }

  /** The last step: create exactly when a run is wanted, otherwise mirror exactly when the status differs. */
  predicate Acts(o: Owner, last: Option<Execution>, key: Key, a: Action) {
    || (a == Fail(key) && (WantsRun(o, last) || !UpToDate(o, last.value)))
    || (WantsRun(o, last) && a.CreateExecution? && a.key == key)
    || (!WantsRun(o, last) && a == if UpToDate(o, last.value) then RestOwner(key) else UpdateOwner(key))
  }

  lemma OwnerInFlight(s: State, key: Key, freshReads: bool)
    requires Arrived(s, freshReads) && key in s.flights && (s.flights[key].OwnerGot? || s.flights[key].OwnerListed?)
    ensures IsOwner(key, s.flights[key].owner)
  {
    ArrivedExactly(s, freshReads);
    ReachableBase(s, freshReads);
    assert FlightOk(s.log, s.owners, s.executions, key, s.flights[key]);
  }

  /** Compares the newest execution's stamp with the owner's generation, and creates or mirrors. */
  method Act(c: Cluster, key: Key, o: Owner, last: Option<Execution>) returns (outcome: Outcome, ghost a: Action)
    requires c.Working(key, None) && c.Polite(key) && c.At(key, OwnerListed(o, last))
    modifies c
    ensures Acts(o, last, key, a) && c.After(key, None, old(c.first), old(c.from), old(c.taken) + [a])
    ensures var gone := key !in c.meanwhile(old(c.calls), old(c.s)).owners;
            outcome == if a.Fail? || (a.UpdateOwner? && gone) then Error else Done
    ensures a.Fail? <==>
              if WantsRun(o, last) then !Accepts(c, old(c.calls), c.meanwhile(old(c.calls), old(c.s)), o)
              else !UpToDate(o, last.value) && c.fails(old(c.calls))
    ensures c.At(key, Ended(outcome))
  {
    OwnerInFlight(c.s, key, c.freshReads);
    ghost var n, m := c.calls, c.meanwhile(c.calls, c.s);
    var desired := FormatInt(o.meta.generation);
    if last.None? {
      outcome := CreateRun(c, key, o, last);
      a := if Accepts(c, n, m, o) then CreateExecution(key, c.grants(n).0, c.grants(n).1) else Fail(key);
      return;
    }
    var current := "";
    if StampKey(key.kind) in last.value.meta.annotations {
      current := last.value.meta.annotations[StampKey(key.kind)];
    }
    if current != desired && IsTerminal(last.value.status.phase) {
      outcome := CreateRun(c, key, o, last);
      a := if Accepts(c, n, m, o) then CreateExecution(key, c.grants(n).0, c.grants(n).1) else Fail(key);
    } else {
      outcome := UpdateStatus(c, key, o, last.value);
      a := if UpToDate(o, last.value) then RestOwner(key) else if c.fails(n) then Fail(key) else UpdateOwner(key);
    }
  }

  /** What the last step lets the reconcile return: a status update may find the owner gone. */
  predicate Returns(a: Action, outcome: Outcome) {
    && (a.Fail? ==> outcome == Error) && (a.CreateExecution? || a.RestOwner? ==> outcome == Done)
    && (a.UpdateOwner? ==> outcome == Done || outcome == Error)
  }

  /**
   * The steps after the owner was read, from the n-th on: List, and one write or none; a failed call is the last.
   * And the outcome.
   */
  ghost predicate ListSteps(c: Cluster, key: Key, o: Owner, n: nat, actions: seq<Action>, outcome: Outcome) {
    if c.fails(n) then actions == [Fail(key)] && outcome == Error
    else
      && |actions| == 2 && actions[0].ListExecutions? && actions[0].key == key
      && Acts(o, Select(actions[0].executions, o.meta.uid), key, actions[1]) && Returns(actions[1], outcome)
  }

  method ListAndAct(c: Cluster, key: Key, o: Owner) returns (outcome: Outcome, ghost actions: seq<Action>)
    requires c.Working(key, None) && c.Polite(key) && c.At(key, OwnerGot(o))
    modifies c
    ensures ListSteps(c, key, o, old(c.calls), actions, outcome)
    ensures c.After(key, None, old(c.first), old(c.from), old(c.taken) + actions)
    ensures c.At(key, Ended(outcome))
  {
    var found;
    ghost var items;
    found, items := LastExecution(c, key, o);
    if found.Fault? {
      outcome, actions := Error, [Fail(key)];
      return;
    }
    ghost var a;
    outcome, a := Act(c, key, o, found.value);
    actions := [ListExecutions(key, items), a];
    Associative(old(c.taken), [ListExecutions(key, items)], [a]);
  }

  /** The steps of one reconcile of the owner, from the n-th on, and its outcome. An owner that is gone is no error. */
  ghost predicate OwnerSteps(
      c: Cluster, key: Key, o: Option<Owner>, n: nat, actions: seq<Action>, outcome: Outcome)
  {
    if c.fails(n) then actions == [Fail(key)] && outcome == Error
    else if o.None? then actions == [GetOwner(key)] && outcome == Done
    else actions != [] && actions[0] == GetOwner(key) && ListSteps(c, key, o.value, n + 1, actions[1..], outcome)
  }

  /**
   * One reconcile of a module or a stack, with anyone acting before each of its steps. The steps it takes are
   * exactly the given ones: it creates exactly when no execution is found or the newest has finished for another
   * generation, otherwise mirrors exactly when the status differs, and fails only where it must. They end the
   * reconcile with the outcome returned.
   */
  method Reconcile(c: Cluster, key: Key) returns (outcome: Outcome, ghost o: Option<Owner>, ghost actions: seq<Action>)
    requires c.Valid() && c.Polite(key) && IsOwnerKind(key.kind) && c.At(key, Popped)
    modifies c
    ensures var m := c.meanwhile(old(c.calls), old(c.s));
            o == if key in m.owners then Some(m.owners[key]) else None
    ensures OwnerSteps(c, key, o, old(c.calls), actions, outcome)
    ensures c.Played(key, None, actions)
    ensures c.At(key, Ended(outcome))
  {
    c.Begin(key, None);
    outcome, o, actions := Steps(c, key);
    assert c.taken == actions;
  }

  method Steps(c: Cluster, key: Key) returns (outcome: Outcome, ghost o: Option<Owner>, ghost actions: seq<Action>)
    requires c.Working(key, None) && c.Polite(key) && IsOwnerKind(key.kind) && c.At(key, Popped)
    modifies c
    ensures var m := c.meanwhile(old(c.calls), old(c.s));
            o == if key in m.owners then Some(m.owners[key]) else None
    ensures OwnerSteps(c, key, o, old(c.calls), actions, outcome)
    ensures c.After(key, None, old(c.first), old(c.from), old(c.taken) + actions)
    ensures c.At(key, Ended(outcome))
  {
    ghost var n, before, owners := c.calls, c.taken, c.meanwhile(c.calls, c.s).owners;
    o := if key in owners then Some(owners[key]) else None;
    var got := c.GetOwner(key);
    if got.Found? {
      outcome, actions := GoOn(c, key, got.value, n, before);
    } else {
      outcome := if got.NotFound? then Done else Error;
      actions := [if got.NotFound? then GetOwner(key) else Fail(key)];
    }
  }

  /** The rest of a reconcile whose last step got the owner. */
  method GoOn(c: Cluster, key: Key, o: Owner, ghost n: nat, ghost before: seq<Action>)
    returns (outcome: Outcome, ghost actions: seq<Action>)
    requires c.Working(key, None) && c.Polite(key) && c.At(key, OwnerGot(o))
    requires c.calls == n + 1 && !c.fails(n) && c.taken == before + [GetOwner(key)]
    modifies c
    ensures OwnerSteps(c, key, Some(o), n, actions, outcome)
    ensures c.After(key, None, old(c.first), old(c.from), before + actions)
    ensures c.At(key, Ended(outcome))
  {
    ghost var more;
    outcome, more := ListAndAct(c, key, o);
    actions := [GetOwner(key)] + more;
    Associative(before, [GetOwner(key)], more);
    assert actions[1..] == more;
  }
}
