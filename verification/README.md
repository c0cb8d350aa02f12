# Verified model of the soyplane controllers

soyplane runs OpenTofu plans in Kubernetes. Three reconcilers share one store of objects. The module and
stack reconcilers (here both *owner* reconcilers) turn each spec generation into at most one
`TofuExecution`, and mirror the newest execution into the owner's status. The execution reconciler turns an
execution into one Job, prunes duplicates, and folds the Job's counters into a phase. What the Job builder
reads besides the module is the process-wide settings store.

This project models the three reconcilers, the work queue, the store and everything around them as one
transition system, and the settings store as a second one, and proves what they guarantee in every reachable
state and along every run.

## How it is laid out

| file | content |
|---|---|
| `Basics`, `Decimal`, `Objects` | options, base-10 text of generations, API objects and their metadata |
| `Selection` | filter, stable sort newest first, take the head; also in place on an array |
| `Decisions` | what one reconcile decides: stamps, the owner's move, phases, images, created objects |
| `Protocol` | the state, 26 actions, when each can happen and what it does; runs and reachability |
| `Invariants` | `Base` (Job lists of any age) and `Strong` (fresh Job lists) |
| `FrontSteps`, `BackSteps`, `BaseSteps`, `BaseRuns` | every action keeps `Base` |
| `FreshSteps`, `StrongRuns` | every action keeps `Strong` when Job lists are fresh |
| `Safety`, `Settling`, `Pruning` | the results about reachable states and runs |
| `Measure`, `WriteRanks`, `Termination` | the termination measure and the end of all writes |
| `ExactCounts` | which writes lower the five counts of the store, exactly |
| `Liveness` | where the store ends up in an endless fair run |
| `Counterexamples` | concrete runs that show where a property fails |
| `Rounds`, `Duplicates` | whole reconciles as runs, and the run that ends with two Jobs of one execution |
| `ApiServer` | the cluster as a mutable object, its API calls, and the record of the steps a reconcile takes |
| `OwnerController`, `ExecutionController` | the reconcile bodies against it |
| `Worker` | the workers: pop a key, reconcile it, hand the outcome to the queue |
| `Configuration`, `SettingsStore` | merged documents, hydration, and the settings state machine |

A reconcile is split at its API calls (Get, List, Get the module, Create, each Delete, the status update), so
any other action may come between two calls: other reconciles, spec edits, metadata edits, deletions, Job
progress, garbage collection, clock ticks, failures of a call, a restart that forgets every reconcile in
flight. The copies a reconcile holds are in its `Flight`.

The imperative bodies in `OwnerController` and `ExecutionController` run against the object `ApiServer.Cluster`.
Its parameters say what everyone else does before the n-th call (`meanwhile`, any run of the protocol that leaves
this reconcile in flight), whether the n-th call fails (`fails`), and which uid and name a create is given
(`grants`). The contracts then say exactly which steps the body itself takes, in order (`Played`, `OwnerSteps`,
`ExecutionSteps`), that a step is `Fail` only where it must be (`MustFail`), and with which outcome they end.
`ApiServer.Cluster.PlaysIsRun` turns such a record into a run of the transition system.

`home`, `specs`, `made`, `newest` and `views` in the state's `Log`, and `moduleUid` and `moduleGeneration` in
a Job's spec, are history: no reconcile reads them.

## Hypotheses

They are the guards in `Protocol.Enabled`, and `Protocol.Initial`: runs start from an empty store, which users then fill.

- One reconcile per key is in flight at a time; a key made dirty meanwhile stays queued.
- Every stored change of an object makes its own key dirty (owners and executions) and its controller's key
  dirty (executions and Jobs). A reconcile that ends with an error, or asks for a requeue, makes its key dirty
  again. A restart makes every stored owner and execution dirty. A requeue after five seconds is the action
  `Requeue`, which may happen at any time.
- A status update applies only if the object still has the version that was read, and does not change
  `generation`. A spec edit raises `generation` by one.
- uids are not reused. Generated names are new.
- A child is created strictly later than its siblings. `Selection.TiesFollowListOrder` shows what happens
  otherwise.
- The failed and succeeded counters of a Job never decrease.
- Nobody but the reconcilers writes owner references, stamps, execution specs or the statuses of owners and
  executions, and nobody but them deletes a Job of an execution that is still stored.
- Get, and List of executions, read the current store. List of Jobs reads the current store where a result has
  `freshReads == true`; otherwise it may return the Jobs of any earlier moment of the run.
- Whether settings are ready, whether a module exists and whether a call succeeds may be anything: `Fail`
  covers those that make a reconcile return an error. A create that is stored but reported as failed is the
  create followed by the requeue of its key.

`Finished` or terminal means the stored phase. `Failed` is stored as soon as one pod has failed, so nothing
here says that two Jobs are never active at the same time.

## Where the expected property does not hold as first put

- **A Job of a module's execution is built from that module.** Not if the module is deleted and recreated under
  its name before the Job is built: `Counterexamples.JobFromReplacedModule` is such a run. The builder reads the
  execution's own module exactly when that module is still stored (`Safety.BuilderReadsOwnModule`), and then at
  a generation no older than the execution's stamp (`Safety.JobProvenance`).
- **Pruning leaves exactly one Job.** It does exactly when no delete failed (`Pruning.PruneLeavesOne`). A failed
  delete is only logged: once the status is final, surplus Jobs whose deletes all failed are not looked at again
  until something else queues the key (`Pruning.FailedDeletesForgotten`). `Duplicates.TwoJobsAtRest` is a run in
  which that happens, to its end: for an execution of no owner, a stale list leads to a second Job; the execution
  succeeds, the delete of the older Job fails, and two Jobs are left with nothing queued.
- **Every write lowers the five counts of the store** (owners without a current execution, executions without a
  Job, surplus Jobs, executions out of step with their Job, owners out of step with their newest execution). A
  write does so exactly when what its own reconcile holds still fits the store (`ExactCounts.FiveCountsExactly`):
  - an execution is created for the generation the stored owner still has;
  - an owner is shown the name and phase of its newest stored execution;
  - a Job is created for an execution that is stored and has none;
  - a Job is pruned, always;
  - an execution is given a status that brings it in step with its current Job, or one that leaves it as much out
    of step as before and is the phase its owner shows already.

  It may not: `Counterexamples.CreateFromOldCopy` and `Counterexamples.MirrorFromOldCopy` are runs to an enabled
  write that lowers none of them. With the keys of reconciles holding outdated copies counted too, every write
  makes the measure smaller (`Termination.WritesDescend`).

## Model

| member | source | states |
|---|---|---|
| Decimal.FormatInjective | internal/controller/opentofu/tofumodule_controller.go:69-85 | Comparing the decimal texts of two generations is comparing the generations. |
| Decimal.DigitByDigit | internal/controller/opentofu/tofumodule_controller.go:69-85 | The texts are base 10: digits are appended, and a sign goes in front. |
| Selection.SelectIsScan | internal/controller/opentofu/tofumodule_controller.go:141-157 | For every list, filtering, stable-sorting newest first and taking the head is one left-to-right scan keeping the first maximum among controlled items. |
| Selection.StableHeadIsScan | internal/controller/opentofu/tofustack_controller.go:141-157 | The same for whatever stable sort runs, given only as its specification; there is no head exactly when nothing is controlled. |
| Selection.SelectFindsNewest | internal/controller/opentofu/tofumodule_controller.go:137-157 | From a List answer in any order the selection is a latest child of the whole store, and none exactly when there is none, provided the children live in the namespace; it is the newest, whatever the order, exactly when no other child was created at the same time. |
| Selection.TiesFollowListOrder | internal/controller/opentofu/tofumodule_controller.go:152-157 | With equal creation times the selected child depends on the order of the answer. |
| Selection.SortInPlace | internal/controller/opentofu/tofumodule_controller.go:153-155 | The in-place sort turns the array into its stable newest-first order. |
| Selection.OwnedNewestFirst | internal/controller/opentofu/tofuexecution_controller.go:284-300 | The filter loop and the in-place sort return all controlled items, newest first, stably. |
| Decisions.NewExecutionStamped | internal/controller/opentofu/tofumodule_controller.go:176-182 | A new execution carries the generation of the owner that was read, whatever the template's annotations say. |
| Decisions.StampTextCurrent | internal/controller/opentofu/tofumodule_controller.go:81-85 | The string comparison of the stamp holds exactly when the stamp is the owner's generation. |
| Decisions.RunSpecExactly | internal/controller/opentofu/tofustack_controller.go:160-187 | The spec of a new execution, spelled out: the template's action and engine; a module's points at the module; a stack's at the module the stack names, in the namespace it names, or in the stack's own when it names none. |
| Decisions.AnnotationsExactly | internal/controller/opentofu/tofumodule_controller.go:170-182 | A new execution has every annotation of the template, unchanged, but for the stamp, which is the generation under the name for that kind of owner. |
| Decisions.StatusExactly | internal/controller/opentofu/tofuexecution_controller.go:90-144 | The status for a Job, spelled out: Failed, Succeeded, Running or Pending by its counters and pods; its name; its times, or those shown before as long as it has none; the text for the phase. |
| Decisions.NewJobExactly | internal/controller/opentofu/tofuexecution_controller.go:169-275 | A Job has the execution's action and engine, or tofu; that engine's image of the given version, or the default image without one; the module's source and working directory, or the root. |
| BaseRuns.StepBase | internal/controller/opentofu/tofumodule_controller.go:54-196 | Every step of every actor keeps the base invariant, with Job lists of any age. |
| StrongRuns.StepStrong | internal/controller/opentofu/tofuexecution_controller.go:61-160 | With fresh Job lists every step also keeps single Jobs, backed phases, no overlap and wake-ups of executions. |
| Safety.NoOverlappingRuns | internal/controller/opentofu/tofumodule_controller.go:71-93 | In every reachable state at most one execution of an owner is neither Succeeded nor Failed, and all but the newest are one of these. |
| Safety.OneRunPerGeneration | internal/controller/opentofu/tofustack_controller.go:69-93 | In creation order an owner's executions have strictly increasing stamps, none above the owner's generation; no two have the same stamp text. |
| Safety.RunProvenance | internal/controller/opentofu/tofustack_controller.go:160-191 | An execution runs what the spec its owner had at exactly the stamped generation calls for (template, module name and namespace), and has that template's annotations. |
| Safety.OwnershipPartition | internal/controller/opentofu/tofumodule_controller.go:134-158 | Listing the owner's namespace loses none of its executions, each of which names it as controller; the selection is the newest in the store. |
| Safety.NewOwnerStartsEmpty | internal/controller/opentofu/tofumodule_controller.go:141-150 | An owner recreated under an old name selects none of the old one's executions. |
| Safety.NonInterference | internal/controller/opentofu/tofustack_controller.go:134-194 | No step of one owner's reconcile changes another owner or the execution it selects. |
| Safety.FinishedIsForever | internal/controller/opentofu/tofuexecution_controller.go:90-150 | Along every run a finished execution stays finished and a failed one failed. |
| Safety.GenerationSandwich | internal/controller/opentofu/tofumodule_controller.go:106-132 | The stamp of the execution an owner's status names is at most the observed generation, which is at most the generation. |
| Safety.ObservedNeverDecreases | internal/controller/opentofu/tofustack_controller.go:106-132 | The observed generation never goes back along a run. |
| Safety.SingleJobPerExecution | internal/controller/opentofu/tofuexecution_controller.go:69-88 | With fresh reads no execution ever owns two Jobs, despite crashes and failed calls. |
| Safety.JobFollowsExecution | internal/controller/opentofu/tofuexecution_controller.go:169-275 | In every reachable state, a Job of a stored execution has that execution's action, engine and versioned image, and source and workdir from a module once stored under the name and namespace the execution gives. |
| Safety.JobProvenance | internal/controller/opentofu/tofuexecution_controller.go:181-192 | A Job of a module's execution does what that execution says and was built from a spec once stored under that module's name; if by the same module, at a generation no older than the stamp. |
| Safety.BuilderReadsOwnModule | internal/controller/opentofu/tofuexecution_controller.go:181-188 | The builder reads the execution's own module exactly when that module is still stored. |
| Counterexamples.JobFromReplacedModule | internal/controller/opentofu/tofuexecution_controller.go:181-188 | A reachable state in which a Job was built from another module of the same name. |
| Safety.NewestJobSurvives | internal/controller/opentofu/tofuexecution_controller.go:277-310 | With Job lists of any age, an execution that ever had a Job still has the newest one made for it. |
| Safety.PruneSparesNewest | internal/controller/opentofu/tofuexecution_controller.go:303-307 | No prune step, whatever its list, deletes the newest Job of any execution. |
| Pruning.PruneLeavesOne | internal/controller/opentofu/tofuexecution_controller.go:284-308 | After a fresh list the kept Job is the newest stored; it is the only one left exactly when no delete failed; other executions lose nothing. |
| Pruning.ReselectionIsStable | internal/controller/opentofu/tofuexecution_controller.go:284-308 | Selecting again after pruning returns the same Job, whichever deletes failed. |
| Pruning.FailedDeletesForgotten | internal/controller/opentofu/tofuexecution_controller.go:303-308 | When the status shown is final, the key is queued again after pruning exactly when it was queued before or some delete succeeded; so failed deletes alone are never retried. |
| Duplicates.ForgottenDelete | internal/controller/opentofu/tofuexecution_controller.go:303-308 | A reachable reconcile with a fresh list, a failing delete and a final status: the case the result above speaks of. |
| Duplicates.TwoJobsAtRest | internal/controller/opentofu/tofuexecution_controller.go:277-310 | A reachable state with stale Job lists in which nothing is queued or in flight and a succeeded execution owns two Jobs. |
| Settling.NoLostOwnerWakeUp | internal/controller/opentofu/tofumodule_controller.go:95-132 | An owner neither dirty nor in flight has nothing to write, whatever List returns, though conflicts are swallowed. |
| Settling.NoLostExecutionWakeUp | internal/controller/opentofu/tofuexecution_controller.go:146-159 | An execution neither dirty nor in flight has one Job, and every field of its status is what that Job calls for. |
| Settling.MoveExactly | internal/controller/opentofu/tofumodule_controller.go:71-132 | A reconcile creates exactly when there is no execution or the newest has succeeded or failed for another generation; otherwise it writes exactly when name or phase differ: these two, and the generation that was read. |
| Settling.RestExactly | internal/controller/opentofu/tofumodule_controller.go:81-131 | A reconcile writes nothing exactly when there is a newest execution, it is current or unfinished, and its name and phase are shown. |
| Settling.Convergence | internal/controller/opentofu/tofustack_controller.go:69-131 | With nothing queued or in flight and all Jobs finished, every owner shows an execution of its current generation, whose status is all that its Job calls for. |
| Settling.FixpointInTwo | internal/controller/opentofu/tofustack_controller.go:63-131 | From any reachable state, after two undisturbed reconciles of an owner the third writes nothing. |
| Termination.WritesDescend | internal/controller/opentofu/tofuexecution_controller.go:74-152 | Every write or prune of any reconciler makes the measure lexicographically smaller; other steps make it no larger, a list of Jobs as long as it is fresh. |
| Termination.StoreMeasureSuffices | internal/controller/opentofu/tofumodule_controller.go:71-131 | A corollary for whole states: when no reconcile holds an outdated copy, every write lowers the five counts. |
| ExactCounts.FiveCountsExactly | internal/controller/opentofu/tofuexecution_controller.go:74-152 | A write of any of the five kinds lowers the five counts if and only if what its own reconcile holds still fits the store, with the condition for each kind. |
| Termination.MirroringAnOldCopyGainsNothing | internal/controller/opentofu/tofumodule_controller.go:110-122 | In a reachable state, mirroring a copy of the newest execution whose phase is not the stored one, into an owner that does not show the stored one either, writes, and leaves all five counts as they were. |
| Counterexamples.CreateFromOldCopy | internal/controller/opentofu/tofumodule_controller.go:71-80 | A reachable state from which a create by a reconcile holding the old generation makes those five worse. |
| Counterexamples.MirrorFromOldCopy | internal/controller/opentofu/tofumodule_controller.go:106-132 | A reachable state (list, the execution's status is written, mirror) from which a status write lowers none of the five. |
| Termination.WritesStop | internal/controller/opentofu/tofustack_controller.go:71-131 | In every endless run with a quiet environment in which every list of Jobs is fresh, the store changes only finitely often. |
| Liveness.OwnerConverges | internal/controller/opentofu/tofustack_controller.go:54-132 | In every endless quiet run with fresh Job lists in which one owner and whatever is its newest execution are again and again idle or reconciled without a failure, from some point on the store is constant and that owner shows its newest execution, whose status is all that its Job calls for; when that Job has finished, it is an execution of the current generation. What becomes of other keys does not matter. |
| Liveness.EventualConvergence | internal/controller/opentofu/tofustack_controller.go:54-132 | The same for all owners at once, from one point on, when every stored owner and execution is served again and again. |
| OwnerController.LastExecution | internal/controller/opentofu/tofumodule_controller.go:134-158 | Takes one List step and returns the newest child in its answer; a failed call is the step instead. |
| OwnerController.ModuleDraft | internal/controller/opentofu/tofumodule_controller.go:160-189 | A module's execution is owned by the module and pointed at it, whatever the template says, with the template's action, engine and annotations, and stamped. |
| OwnerController.StackDraft | internal/controller/opentofu/tofustack_controller.go:160-187 | A stack's execution takes the module name the stack gives, and its namespace when it gives one, otherwise the stack's; action, engine and annotations are the template's, and it is stamped. |
| OwnerController.CreateRun | internal/controller/opentofu/tofumodule_controller.go:71-93 | Stores exactly the new execution of the owner that was read and ends with Done, when the call does not fail and the server grants the name; otherwise stores nothing and ends with Error. |
| OwnerController.UpdateStatus | internal/controller/opentofu/tofumodule_controller.go:106-132 | Calls the server exactly when name or phase differ; writes them with the generation that was read if the owner still has its version; a conflict writes nothing and is Done; a failed call or a missing owner is Error. |
| OwnerController.Act | internal/controller/opentofu/tofustack_controller.go:69-103 | One step: a create exactly when there is no execution, or the newest has succeeded or failed and its stamp text is not the generation's; else a status write exactly when the status differs; when it fails, and that the outcome is Error only then or when the owner is gone. |
| OwnerController.Reconcile | internal/controller/opentofu/tofumodule_controller.go:54-104 | Takes exactly the steps Get, List, and the one write that is called for, or stops at the first whose call fails; leaves the state these steps and the interference between them give; Done when the owner is gone or rests or its execution is created, Error when a step fails. |
| ApiServer.Cluster.PlaysIsRun | internal/controller/opentofu/tofumodule_controller.go:54-104 | The steps a reconcile takes, with everyone else's between them, are a run of the protocol that ends in a reachable state with the reconcile still in flight. |
| Worker.Reconcile | internal/controller/opentofu/tofumodule_controller.go:198-206 | Hands the key to its reconciler: the steps are exactly those of that reconciler, played to where it ends, with its outcome. |
| Worker.Work | internal/controller/opentofu/tofumodule_controller.go:198-205 | One turn for a dirty key: from the popped state exactly the steps of its reconciler are played, and c.s is where they end with the key finished: in flight no longer, queued again after an error or a wish to come back at once. It is a run of the protocol. When a run is due and no call fails, the owner's new execution is stored; when a Job is due, the execution's Job. |
| Worker.FirstRunStored | internal/controller/opentofu/tofumodule_controller.go:71-80 | If no call fails, the owner is there, no execution of it is, and the server grants a name, these steps store the owner's new execution in what the create met. |
| Worker.FirstJobStored | internal/controller/opentofu/tofuexecution_controller.go:74-88 | If no call fails, the execution and its module are there, no Job can be listed, settings are ready and the server grants a name, these steps store the execution's Job in what the create met. |
| Worker.AloneRunIsDue | internal/controller/opentofu/tofumodule_controller.go:71-80 | For a stored owner without executions that nobody else touches, with no failing call and a new uid and name, that is the case. |
| Worker.Serve | internal/controller/opentofu/tofuexecution_controller.go:312-319 | Any number of opportunities, each after the others went on: at each the worker has a turn, with the steps and the end on record, for a key it can take, unless there is none. All of it is a run of the protocol. |
| ExecutionController.CurrentJobOf | internal/controller/opentofu/tofuexecution_controller.go:277-310 | Takes a List step and then one delete step for every Job of the execution in the answer but the newest, each failing as its call does, and returns the newest. |
| ExecutionController.PruneStale | internal/controller/opentofu/tofuexecution_controller.go:303-307 | Takes one delete step for each stale Job, in order, each failing exactly as its call does, and nothing else. |
| ExecutionController.ConstructJob | internal/controller/opentofu/tofuexecution_controller.go:169-275 | Builds the Job the execution, the module and the default image call for, with action, engine, image, source and working directory spelled out; its image is empty only if the default is. |
| ExecutionController.DeriveStatus | internal/controller/opentofu/tofuexecution_controller.go:90-144 | The field-by-field updates give the status the Job calls for, with phase, name, times and text spelled out from its counters, and the change flag says exactly whether it differs. |
| ExecutionController.BuildJob | internal/controller/opentofu/tofuexecution_controller.go:169-275 | Stores exactly one Job, as execution, module and the settings' image call for, with a non-empty image, when settings are ready, the call does not fail and the server grants the name; otherwise Error. |
| ExecutionController.CreateFirstJob | internal/controller/opentofu/tofuexecution_controller.go:74-88 | Reads the module and builds: RequeueNow exactly when the last step is a create of a Job, whose image is that of the settings and not empty; otherwise Error. |
| ExecutionController.ShowJob | internal/controller/opentofu/tofuexecution_controller.go:140-159 | Calls the server exactly when the status is not what the Job calls for; stores that if the execution still has the version read, else Error; Done exactly when the Job has failed or succeeded pods, else a later requeue. |
| ExecutionController.Reconcile | internal/controller/opentofu/tofuexecution_controller.go:61-160 | Takes exactly the steps Get, List, a delete of each Job but the newest, and then either Get of the module and a create, or one status write, or stops at the first that must fail; leaves the state these and the interference between them give; Done when the execution is gone, else the outcome for its Job, RequeueNow after a create, Error after a failure. |
| Configuration.LastDocumentWins | internal/settings/config.go:106-112 | The load loop succeeds exactly when every provider can be read, and then each key has the value of the last document defining it. |
| Configuration.LayeredMeaning | internal/settings/schema.go:39-64 | When loading succeeds, which of the three errors it reports otherwise, and that the image is the last one given or the default when that is absent, null or empty. |
| Configuration.NothingNeverLoads | internal/settings/schema.go:13-16 | Without providers hydration fails, since test is false. |
| SettingsStore.HydrateSettings | internal/settings/schema.go:39-64 | Decode, fill in the default and validate, in that order, compute the hydration. |
| SettingsStore.Package.LoadProviders | internal/settings/config.go:106-118 | The load loop, stopping at the first unreadable provider, and the hydration of what it merged. |
| SettingsStore.Package.AttachWatchers | internal/settings/config.go:128-159 | Exactly the providers that agree, up to the first refusal, are recorded, in order; those that cannot watch are skipped; a refusal is returned and leaves the earlier ones attached. |
| SettingsStore.Package.Init | internal/settings/config.go:42-83 | Init as a step of the settings state machine, with every error exit; on success before readiness the providers are the given paths, or the default ones when none are given, and otherwise they stay. |
| SettingsStore.Package.Load | internal/settings/config.go:86-104 | Load as a step: all replaced, or nothing; the providers stay. |
| SettingsStore.Package.OnWatch | internal/settings/config.go:144-153 | A watch error is passed over; a change reloads, and a failed reload is only logged; the providers stay. |
| SettingsStore.Package.Snapshot | internal/settings/schema.go:67-76 | The cached settings, or an error before settings are ready; what it returns has test set and a non-empty default image, after any operations. |
| SettingsStore.AllOrNothing | internal/settings/config.go:42-104 | A failing Init or Load, and an Init once ready, change neither tree, providers, cache nor readiness. |
| SettingsStore.SuccessReplacesAll | internal/settings/config.go:73-103 | An operation either replaces all of them by the hydration of what it read, or none of them. |
| SettingsStore.InitExactly | internal/settings/config.go:42-83 | An Init before readiness, spelled out: which paths it reads, an error of loading first and without effect, then a refused watch and which watchers it leaves, then all set together. |
| SettingsStore.ReloadExactly | internal/settings/config.go:86-104 | A Load or callback keeps providers and watchers, reports why the documents do not load and then changes nothing, or takes what they load to. |
| SettingsStore.ProvidersFromInit | internal/settings/config.go:42-104 | Over every run, once ready, the providers are the paths of the first Init that succeeded, or the default ones if it was given none; nothing later changes them. |
| SettingsStore.WatchedExactly | internal/settings/config.go:128-159 | Recorded are exactly the paths of the providers that agreed to call back, in order. |
| SettingsStore.FailuresLeaveNoTrace | internal/settings/config.go:42-104 | In every run, dropping all operations that failed or came too late gives the same tree, providers, cache and readiness. |
| SettingsStore.ReadyMeansLoaded | internal/settings/config.go:93-104 | Over every run, readiness means that some operation of the run loaded successfully, and that tree and cache are the hydration of what every provider held during the last one that did. |
| SettingsStore.ReadyOnlyByInit | internal/settings/config.go:66-76 | Settings are ready exactly when some Init succeeded, whatever callbacks orphaned watchers make. |
| SettingsStore.SnapshotsAreUsable | internal/settings/schema.go:67-86 | Every snapshot of every run has test set and a non-empty default image. |

## Left out

- Flag parsing, TLS, process wiring and the agent binary.
- The text of the Job's shell script: it is a function of source, workdir, engine and action, which the Job's spec keeps.
- Labels, annotations of Jobs, env, service account, generateName prefixes: copied through. A generated name is any new name.
- Status conditions, last plan and apply, drift detection, autoApply: the reconcilers do not use them.
- Logging, metrics and events.
- Real time: creation times come from a clock that may tick at any moment, and delays of requeues are not measured.
- Stale Get answers and stale lists of executions; lists of Jobs may be stale where a result says so.
- Deletion of a Job of a stored execution by anyone else, after which the code creates another Job.
- The parsing of YAML and the decoder: a provider's content and what a value decodes to are inputs. Keys outside `execution` and `test` are not modelled.
- Two settings operations at once: each holds the lock throughout, so they are steps.
- OwnerController.Reconcile: a restart of the process during the body is an action of the protocol, not a way for the body to end.
- ExecutionController.Reconcile: as above; the settings snapshot is read at one moment, from a store that does not change meanwhile.
