/**
 * The API objects the reconcilers read and write.
 *
 * Every object carries the same metadata; a module and a stack differ only in their spec, so both
 * are an Owner here. Specs and statuses are values: the API hands out copies.
 */
module Objects {
  import opened Basics

  type Uid = nat

  datatype Kind = ModuleKind | StackKind | ExecutionKind | JobKind

  /** The name of an object: what Get, Delete and the work queue use. It may be reused; a uid is not. */
  datatype Key = Key(kind: Kind, ns: string, name: string)

  /** The controller owner reference. It names an object of the child's own namespace. */
  datatype ControllerRef = ControllerRef(kind: Kind, name: string, uid: Uid)

  datatype Meta = Meta(
    key: Key,
    uid: Uid,
    controller: Option<ControllerRef>,
    created: nat,
    generation: int,
    version: nat,
    annotations: map<string, string>)

  datatype Object<+S, +T> = Object(meta: Meta, spec: S, status: T)

  datatype ModuleRef = ModuleRef(ns: string, name: string)

  datatype Engine = Engine(name: string, version: string)

  datatype ExecutionSpec = ExecutionSpec(action: string, moduleRef: ModuleRef, engine: Engine)

  datatype Template = Template(annotations: map<string, string>, spec: ExecutionSpec)

  datatype OwnerSpec =
    | ModuleSpec(source: string, workdir: string, template: Template)
    | StackSpec(moduleRef: ModuleRef, template: Template)

  /** NoPhase is the empty string of a status never written. */
  datatype Phase = NoPhase | Pending | Running | Succeeded | Failed

  datatype OwnerStatus = OwnerStatus(phase: Phase, observedGeneration: int, lastExecution: string)

  datatype ExecutionStatus = ExecutionStatus(
    phase: Phase,
    jobName: string,
    startedAt: Option<int>,
    finishedAt: Option<int>,
    summary: string)

  /**
   * The parameters of the pod script and its image. moduleUid and moduleGeneration are history: they
   * record which module, at which generation, the builder read.
   */
  datatype JobSpec = JobSpec(
    source: string,
    workdir: string,
    engine: string,
    action: string,
    image: string,
    moduleUid: Uid,
    moduleGeneration: int)

  datatype JobStatus = JobStatus(
    failed: nat,
    succeeded: nat,
    active: nat,
    terminating: bool,
    uncounted: bool,
    startTime: Option<int>,
    completionTime: Option<int>)

  type Owner = Object<OwnerSpec, OwnerStatus>
  type Execution = Object<ExecutionSpec, ExecutionStatus>
  type Job = Object<JobSpec, JobStatus>

  const NO_OWNER_STATUS := OwnerStatus(NoPhase, 0, "")
  const NO_EXECUTION_STATUS := ExecutionStatus(NoPhase, "", None, None, "")
  const NO_JOB_STATUS := JobStatus(0, 0, 0, false, false, None, None)

  predicate IsOwnerKind(kind: Kind) {
    kind == ModuleKind || kind == StackKind
  }

  predicate ControlledBy(m: Meta, uid: Uid) {
    m.controller.Some? && m.controller.value.uid == uid
  }

  /** The key a child's controller reference points at. */
  function ControllerKey(m: Meta): Key
    requires m.controller.Some?
  {
    Key(m.controller.value.kind, m.key.ns, m.controller.value.name)
  }

  /**
   * The keys an event on an object puts in the work queue: the object's own key (the For edges, which
   * Jobs do not have) and its controller's key (the Owns edges).
   */
  function Wakes(m: Meta): set<Key> {
    (if m.key.kind == JobKind then {} else {m.key}) +
    (if m.controller.Some? then {ControllerKey(m)} else {})
  }

  /** items is a List answer for one namespace: each stored object of it once, in any order. */
  ghost predicate IsListing<S, T>(objects: map<Key, Object<S, T>>, ns: string, items: seq<Object<S, T>>) {
    && (forall i :: 0 <= i < |items| ==>
          items[i].meta.key.ns == ns && items[i].meta.key in objects && objects[items[i].meta.key] == items[i])
    && (forall k :: k in objects && k.ns == ns ==> objects[k] in items)
    && (forall i, j :: 0 <= i < j < |items| ==> items[i].meta.key != items[j].meta.key)
  }

  /** The newest stored object controlled by uid, or None when uid controls nothing. */
  ghost predicate IsNewest<S, T>(objects: map<Key, Object<S, T>>, uid: Uid, newest: Option<Object<S, T>>) {
    match newest
    case None => forall k :: k in objects ==> !ControlledBy(objects[k].meta, uid)
    case Some(e) =>
      && ControlledBy(e.meta, uid)
      && e.meta.key in objects && objects[e.meta.key] == e
      && forall k :: k in objects && ControlledBy(objects[k].meta, uid) && k != e.meta.key ==>
           objects[k].meta.created < e.meta.created
  }

  lemma NewestUnique<S, T>(objects: map<Key, Object<S, T>>, uid: Uid, a: Option<Object<S, T>>, b: Option<Object<S, T>>)
    requires IsNewest(objects, uid, a) && IsNewest(objects, uid, b)
    ensures a == b
  {
    if a.Some? && b.Some? {
      assert a.value.meta.key == b.value.meta.key;
    }
  }
}
