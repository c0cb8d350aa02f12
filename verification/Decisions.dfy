/**
 * What one reconcile decides from the objects it has read: the generation stamp, the owner's move,
 * the phase of an execution and the objects the reconcilers create.
 */
module Decisions {
  import opened Basics
  import opened Decimal
  import opened Objects

  const MODULE_STAMP := "opentofu.soyplane.io/module-generation"
  const STACK_STAMP := "opentofu.soyplane.io/stack-generation"

  function StampKey(kind: Kind): string {
    if kind == ModuleKind then MODULE_STAMP else STACK_STAMP
  }

  predicate IsTerminal(phase: Phase) {
    phase == Succeeded || phase == Failed
  }

  /** The text an owner of the given kind reads off an execution; empty when it is not there. */
  function StampText(kind: Kind, e: Execution): string {
    if StampKey(kind) in e.meta.annotations then e.meta.annotations[StampKey(kind)] else ""
  }

  /** The generation an execution was made for. */
  function Stamp(e: Execution): int {
    if e.meta.controller.Some? then ParseInt(StampText(e.meta.controller.value.kind, e)) else 0
  }

  ghost predicate WellStamped(e: Execution) {
    e.meta.controller.Some? && StampText(e.meta.controller.value.kind, e) == FormatInt(Stamp(e))
  }

  /** The module a spec points at. */
  function ModuleKeyOf(spec: ExecutionSpec): Key {
    Key(ModuleKind, spec.moduleRef.ns, spec.moduleRef.name)
  }

  datatype OwnerMove = CreateRun | Mirror(status: OwnerStatus) | Rest

  function Decide(o: Owner, last: Option<Execution>): OwnerMove {
    match last
    case None => CreateRun
    case Some(e) =>
      if StampText(o.meta.key.kind, e) != FormatInt(o.meta.generation) && IsTerminal(e.status.phase) then CreateRun
      else if o.status.lastExecution != e.meta.key.name || o.status.phase != e.status.phase then
        Mirror(OwnerStatus(e.status.phase, o.meta.generation, e.meta.key.name))
      else Rest
  }

  /** The spec of an execution made for the owner at key: its template, pointed at the owner's module. */
  function RunSpec(key: Key, spec: OwnerSpec): ExecutionSpec {
    match spec
    case ModuleSpec(_, _, template) => template.spec.(moduleRef := ModuleRef(key.ns, key.name))
    case StackSpec(ref, template) =>
      template.spec.(moduleRef := if ref.ns == "" then ref.(ns := key.ns) else ref)
  }

  /**
   * What an execution of the owner at key runs: its template's action and engine, on the module itself or, for a
   * stack, on the module it names, in the stack's namespace unless it names another.
   */
  predicate RunsFor(key: Key, owner: OwnerSpec, spec: ExecutionSpec) {
    && spec.action == owner.template.spec.action && spec.engine == owner.template.spec.engine
    && (owner.ModuleSpec? ==> spec.moduleRef.ns == key.ns && spec.moduleRef.name == key.name)
    && (owner.StackSpec? ==>
          && spec.moduleRef.name == owner.moduleRef.name
          && (owner.moduleRef.ns != "" ==> spec.moduleRef.ns == owner.moduleRef.ns)
          && (owner.moduleRef.ns == "" ==> spec.moduleRef.ns == key.ns))
  }

  lemma RunSpecExactly(key: Key, owner: OwnerSpec, spec: ExecutionSpec)
    ensures spec == RunSpec(key, owner) <==> RunsFor(key, owner, spec)
  {
  }

  function StampedAnnotations(kind: Kind, template: map<string, string>, generation: int): map<string, string> {
    template[StampKey(kind) := FormatInt(generation)]
  }

  /** The template's annotations, all of them, with the generation under the name that kind of owner uses. */
  ghost predicate Annotated(
      kind: Kind, template: map<string, string>, generation: int, annotations: map<string, string>)
  {
    var stamp := if kind == ModuleKind then "opentofu.soyplane.io/module-generation"
                 else "opentofu.soyplane.io/stack-generation";
    && stamp in annotations && annotations[stamp] == FormatInt(generation)
    && forall k :: k != stamp ==>
         (k in annotations <==> k in template) && (k in template ==> annotations[k] == template[k])
  }

  lemma AnnotationsExactly(
      kind: Kind, template: map<string, string>, generation: int, annotations: map<string, string>)
    requires IsOwnerKind(kind)
    ensures annotations == StampedAnnotations(kind, template, generation) <==>
            Annotated(kind, template, generation, annotations)
  {
    var stamped := StampedAnnotations(kind, template, generation);
    if Annotated(kind, template, generation, annotations) {
      forall k ensures (k in annotations <==> k in stamped) && (k in stamped ==> annotations[k] == stamped[k]) {
      }
    }
  }

  function NewExecution(o: Owner, uid: Uid, name: string, now: nat, version: nat): Execution {
    Object(
      Meta(
        Key(ExecutionKind, o.meta.key.ns, name),
        uid,
        Some(ControllerRef(o.meta.key.kind, o.meta.key.name, o.meta.uid)),
        now,
        1,
        version,
        StampedAnnotations(o.meta.key.kind, o.spec.template.annotations, o.meta.generation)),
      RunSpec(o.meta.key, o.spec),
      NO_EXECUTION_STATUS)
  }

  /** A new execution carries the generation of the owner that was read, whatever the template said. */
  lemma NewExecutionStamped(o: Owner, uid: Uid, name: string, now: nat, version: nat)
    ensures WellStamped(NewExecution(o, uid, name, now, version))
    ensures Stamp(NewExecution(o, uid, name, now, version)) == o.meta.generation
  {
    ParseFormat(o.meta.generation);
  }

  /** Comparing stamp texts is comparing generations. */
  lemma StampTextCurrent(o: Owner, e: Execution)
    requires WellStamped(e) && e.meta.controller.value.kind == o.meta.key.kind
    ensures StampText(o.meta.key.kind, e) == FormatInt(o.meta.generation) <==> Stamp(e) == o.meta.generation
  {
    FormatInjective(Stamp(e), o.meta.generation);
  }

  function PhaseOf(j: JobStatus): Phase {
    if j.failed > 0 then Failed
    else if j.succeeded > 0 then Succeeded
    else if j.active > 0 || j.terminating || j.uncounted then Running
    else Pending
  }

  function SummaryOf(phase: Phase): string {
    match phase
    case Succeeded => "Plan completed successfully"
    case Failed => "Plan failed"
    case Running => "Plan is running"
    case _ => "Plan pending"
  }

  /** The status an execution should show for its Job. Times already shown stay when the Job has none. */
  function NextStatus(shown: ExecutionStatus, j: Job): ExecutionStatus {
    ExecutionStatus(
      PhaseOf(j.status),
      j.meta.key.name,
      if j.status.startTime.Some? then j.status.startTime else shown.startedAt,
      if j.status.completionTime.Some? then j.status.completionTime else shown.finishedAt,
      SummaryOf(PhaseOf(j.status)))
  }

  /**
   * What an execution that showed before shows of its Job: the phase its counters and pods stand for, its name,
   * its times or, as long as it has none, those shown before, and a text for the phase.
   */
  predicate Reports(before: ExecutionStatus, status: ExecutionStatus, j: Job) {
    var counts := j.status;
    var pods := counts.active > 0 || counts.terminating || counts.uncounted;
    && (status.phase == Failed <==> counts.failed > 0)
    && (status.phase == Succeeded <==> counts.failed == 0 < counts.succeeded)
    && (status.phase == Running <==> counts.failed == 0 && counts.succeeded == 0 && pods)
    && (status.phase == Pending <==> counts.failed == 0 && counts.succeeded == 0 && !pods)
    && status.jobName == j.meta.key.name
    && (counts.startTime.Some? ==> status.startedAt == counts.startTime)
    && (counts.startTime.None? ==> status.startedAt == before.startedAt)
    && (counts.completionTime.Some? ==> status.finishedAt == counts.completionTime)
    && (counts.completionTime.None? ==> status.finishedAt == before.finishedAt)
    && (status.phase == Failed ==> status.summary == "Plan failed")
    && (status.phase == Succeeded ==> status.summary == "Plan completed successfully")
    && (status.phase == Running ==> status.summary == "Plan is running")
    && (status.phase == Pending ==> status.summary == "Plan pending")
  }

  lemma StatusExactly(before: ExecutionStatus, status: ExecutionStatus, j: Job)
    ensures status == NextStatus(before, j) <==> Reports(before, status, j)
  {
  }

  /** The counters back a terminal phase. */
  predicate Covers(phase: Phase, j: JobStatus) {
    && (phase == Failed ==> j.failed > 0)
    && (phase == Succeeded ==> j.failed > 0 || j.succeeded > 0)
  }

  function EngineName(engine: Engine): string {
    if engine.name == "" then "tofu" else engine.name
  }

  function ChooseImage(engine: Engine, defaultImage: string): string {
    if engine.version == "" then defaultImage
    else if EngineName(engine) == "terraform" then "hashicorp/terraform:" + engine.version
    else if EngineName(engine) == "tofu" then "ghcr.io/opentofu/opentofu:" + engine.version
    else EngineName(engine) + ":" + engine.version
  }

  /** What a Job does for an execution with this spec: its action, with its engine, in that engine's image. */
  predicate BuiltTo(spec: ExecutionSpec, j: JobSpec) {
    && j.action == spec.action
    && (spec.engine.name != "" ==> j.engine == spec.engine.name)
    && (spec.engine.name == "" ==> j.engine == "tofu")
    && (spec.engine.version != "" && j.engine == "terraform" ==>
          j.image == "hashicorp/terraform:" + spec.engine.version)
    && (spec.engine.version != "" && j.engine == "tofu" ==>
          j.image == "ghcr.io/opentofu/opentofu:" + spec.engine.version)
    && (spec.engine.version != "" && j.engine != "terraform" && j.engine != "tofu" ==>
          j.image == j.engine + ":" + spec.engine.version)
  }

  /** And of the module: its source, and its working directory or the root. */
  predicate BuiltOf(from: OwnerSpec, j: JobSpec)
    requires from.ModuleSpec?
  {
    && j.source == from.source
    && (from.workdir != "" ==> j.workdir == from.workdir) && (from.workdir == "" ==> j.workdir == ".")
  }

  /** The spec of the Job of x, built from m where the default image is the given one. */
  predicate JobCalledFor(x: Execution, m: Owner, defaultImage: string, j: JobSpec)
    requires m.spec.ModuleSpec?
  {
    && BuiltTo(x.spec, j) && BuiltOf(m.spec, j)
    && (x.spec.engine.version == "" ==> j.image == defaultImage)
  }

  lemma NewJobExactly(x: Execution, m: Owner, defaultImage: string, uid: Uid, name: string, now: nat)
    requires m.spec.ModuleSpec?
    ensures JobCalledFor(x, m, defaultImage, NewJob(x, m, defaultImage, uid, name, now).spec)
  {
  }

  function NewJob(x: Execution, m: Owner, defaultImage: string, uid: Uid, name: string, now: nat): Job
    requires m.spec.ModuleSpec?
  {
    Object(
      Meta(
        Key(JobKind, x.meta.key.ns, name),
        uid,
        Some(ControllerRef(ExecutionKind, x.meta.key.name, x.meta.uid)),
        now, 1, 0, map[]),
      JobSpec(
        m.spec.source,
        if m.spec.workdir == "" then "." else m.spec.workdir,
        EngineName(x.spec.engine),
        x.spec.action,
        ChooseImage(x.spec.engine, defaultImage),
        m.meta.uid,
        m.meta.generation),
      NO_JOB_STATUS)
  }
}
