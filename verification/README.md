# Verification of the LanguageModel controller

LM-Controller is a Flux controller: a user writes a LanguageModel object, and the
controller fetches the artifact of its source, builds a deployment from it, applies
the objects, records them in an inventory, deletes what has become stale, waits for
health, and reports conditions and revisions in the object's status. When the
LanguageModel is deleted, the controller deletes what the inventory holds and removes
its finalizer. Every one of these calls can fail, the status is persisted at up to six
points of a run, and users, other controllers and crashes come in between.

`dafny verify dfyconfig.toml` checks everything.

## How it is modelled

- `Machine.dfy` is the state machine. A state (`World`) is the persisted object, the
  controller's copy of it, the next external call, and the live objects with their owner
  and opt-out labels. A step is the reply to one external call, or an action of a
  user or another controller, or a crash. Between two calls the controller is
  deterministic, so a run is a sequence of labels. The labels of a source lookup and of a
  health check also carry what was asked for.
- `Invariants.dfy` has what every step keeps; `Safety.dfy`, `History.dfy`,
  `Observation.dfy`, `Success.dfy`, `Reader.dfy` and `Convergence.dfy` have theorems about
  whole runs; `Calls.dfy` has what one call reads, waits for, persists on the way and
  concludes; `Fleet.dfy` interleaves the runs of any number of LanguageModels over one
  cluster, and shows that each of them sees a run of its own.
- `Orphans.dfy` is about orphans: live objects that carry the owner labels and that nothing
  records. Being an orphan is a matter of the state alone, so an object that is recorded
  again is none any more. `Orphans.Abandoned` says, from the state before a step and its
  label alone, which objects the step abandons, and `Orphans.OrphansOfStep` proves that the
  step makes orphans of exactly these. `PruneError.dfy` is a concrete run with an orphan at
  its end.
- `Reconciler.dfy` is the controller as it is written: methods that update a copy of the
  object step by step, with early returns and a deferred final patch. `Reconcile` is
  proved to take exactly one call of the machine, from any state and against any
  replies, so the theorems about runs are theorems about it.
- `StagedApply.dfy` is the three-stage apply over a resource manager whose calls may fail
  half-way; the whole of it is proved to be one apply of the machine.
- `Inventory.dfy` and `ObjectIds.dfy` are the inventory and the one-line form
  `<namespace>_<name>_<group>_<kind>` of an identity, printed and parsed concretely.
- `Quantities.dfy` and `Resources.dfy` are the rounding of sizes and the resource
  requirements of the engine; `Manifests.dfy` is what a build produces; `Sources.dfy` is
  source resolution, the source index and the event filter.

## What is assumed

These are contracts of libraries and of the cluster; they are the replies that
`Machine.Allowed` permits and the effects in `Cluster.dfy`.

- A successful apply makes every given object that does not opt out live as given and
  owned, and reports one entry per object, in any order. A failing one may have done any
  part of its work. Applying what is already owned and as wanted reports no change.
- A successful deletion removes exactly the targets that carry the owner labels and no
  opt-out label; a failing one, any part of them.
- A patch of status and finalizer is atomic, and may be persisted although the caller sees an
  error. An object that is being deleted disappears with its last finalizer, and ours is
  the only one.
- Reads are fresh, and one LanguageModel is reconciled by one worker at a time. Users do
  not write status or finalizers, and nobody else puts our owner labels on an object;
  otherwise everybody may change, create and delete live objects at any moment.
- Namespaces and names are DNS names (RFC 1123, section 2.1), so they contain neither `_`
  nor `/`.
- The library's set difference of identities comes in any order, sorting is by a total preorder whose
  ties may come out in any order, and an artifact has a revision exactly when the two
  strings are equal.

## Findings

Some statements one would expect are not true of the code. The code is modelled as it is,
and lemmas say when each statement holds and when it does not.

- Not every owned object is recorded or pruned: a step makes orphans exactly of what
  `Orphans.Abandoned` says. The events are an apply error, a stale object dropped while
  pruning is off, a pruning error or an opt-out label, a crash or a failed final patch with an
  unsaved inventory, and a finalization that does not prune; each counts only for the owned
  objects it concerns that nothing else records (`Orphans.OrphansOfStep`, both directions).
  Whatever is abandoned can be left behind for good (`Orphans.AbandonedIsLeftBehind`), and
  for every LanguageModel a single failing deletion is enough
  (`PruneError.PruneErrorOrphans`): the inventory is overwritten before pruning.
- A Ready object with the current generation observed runs its spec, contents included, unless
  it is suspended or being deleted, or somebody interfered (`Reader.ReadyNowRunsItsSpec`).
  The final patch of every call records the generation of a Ready object, also when nothing
  of that generation was applied: edits of a suspended object and of one that is being deleted
  are observed with inventory and cluster as they were, so that the new spec is running if and
  only if it was before the edit (`Reader.SuspendedEditIsObserved`,
  `Reader.DeletingEditIsObserved`). After an edit of the engine it is not
  (`Reader.OtherEngineNotRunning`).
- A failure to find the source is retried, but it is reported as ProgressingWithRetry if and
  only if the object had a Reconciling condition already: a LanguageModel that was Ready and
  loses its source has none (`Safety.EndWithoutSource`). Failures inside `reconcile` do report
  it, except when one of its own status patches fails (`Safety.EndOfReconcile`).
- Rounding a size in binary units divides by 10^9 but prints multiples of 2^30: with factor
  one, `<n>Gi` stays as it is if and only if n is 0 (`Quantities.BinaryIdempotentOnlyAtZero`).
  Sizes in decimal units stay as they are. A bare `0` is refused (`Quantities.UnusualFormats`).
- The CPU limit is overwritten with the CPU request: a limit of the spec is kept if and only
  if it equals the request, and without a request the limit is zero
  (`Resources.CpuLimitKept`).

## Model

| member | source | states |
|---|---|---|
| Orphans.OrphansOfStep | internal/controller/languagemodel_controller.go:565-597 | For every step of every reachable state: the objects that become orphans, owned and live but recorded nowhere, are exactly those that `Abandoned` computes from the state before and the reply. |
| Orphans.AbandonedIsLeftBehind | internal/controller/languagemodel_controller.go:582-597 | Whatever a step abandons, the call can end right there with its final patch persisted, and the object is then live, owned, and in no inventory. |
| Orphans.UnsavedExactly | internal/controller/languagemodel_controller.go:581-597 | Until its end a call has unsaved objects only between a successful apply and the next patch: exactly what was built and the persisted inventory lacks. |
| Orphans.PatchSaves | internal/controller/languagemodel_controller.go:1233-1238 | That patch, once persisted, leaves nothing unsaved, even if the caller sees an error. |
| Orphans.OrphansHaveACause | internal/controller/languagemodel_controller.go:488-623 | In every run, with any interference, crashes and failures: an orphan was abandoned by some step and has been an orphan ever since; so whatever is recorded again is none. |
| Orphans.NoOrphans | internal/controller/languagemodel_controller.go:488-623 | A run that abandons nothing has no orphans: between two calls everything owned is in the persisted inventory, and during a call in that one or in the copy's. |
| Orphans.CompleteFinalization | internal/controller/languagemodel_controller.go:346-406 | If at some moment there are no orphans and nothing is abandoned from then on, none of the objects is live once the LanguageModel is gone, whatever went wrong before. |
| Orphans.FinalizerFirst | internal/controller/languagemodel_controller.go:157-164 | In every reachable state: apply is called only under a persisted finalizer; without one every owned live object is an orphan, and on a clean run there is none. |
| PruneError.PruneErrorOrphans | internal/controller/languagemodel_controller.go:582-597 | For every LanguageModel there is a run without interference in which one deletion is all that fails and that ends with a volume claim live, owned, and in no inventory. |
| Success.SuccessIsLive | internal/controller/languagemodel_controller.go:564-620 | In every run, through edits and after any failures: once a successful call is persisted, exactly the objects its spec builds are recorded, none of them is an orphan, and each is live as built or opts out, unless somebody interfered since the apply. |
| Reader.ReadyNowRunsItsSpec | internal/controller/languagemodel_controller.go:296-299 | In every reachable state: an object that is Ready for its current generation, not suspended and not being deleted, has recorded exactly the objects last built, and its current spec builds these very objects, contents included, from an artifact of the last applied revision; unless somebody interfered since the last apply, all of them are live as built or opt out. |
| Observation.ReadyMeansApplied | internal/controller/languagemodel_controller.go:296-299 | A call about to report Ready schedules the next interval if and only if it read an object neither suspended nor being deleted, and then it has applied and recorded the spec it read. |
| Reader.SuspendedEditIsObserved | internal/controller/languagemodel_controller.go:166-170 | Every Ready object edited into a suspended one is Ready for the new generation after the next call, with inventory and live objects as they were, and the new spec is running if and only if it was before the edit. |
| Reader.DeletingEditIsObserved | internal/controller/languagemodel_controller.go:365-369 | The same of every Ready object that is edited while it is being deleted, when the client for its finalization cannot be had. |
| Reader.OtherEngineNotRunning | internal/controller/languagemodel_controller.go:813-920 | Where a spec is running, no spec with another engine is, unless every recorded object opts out of being applied. |
| Reader.RunningIsBuilt | internal/controller/languagemodel_controller.go:644-660 | A spec that never builds what is recorded is not running. |
| Reader.OtherDeploymentNeverBuilds | internal/controller/languagemodel_controller.go:644-660 | A change between a Deployment and a Knative Service is to a spec that never builds what is recorded, for every artifact. |
| Safety.CallReportsWhatItRead | internal/controller/languagemodel_controller.go:286-312 | In every run: a call whose final patch is persisted has observed exactly the generation it read if it ends Ready, and otherwise leaves the observed generation as it read it; it has handled exactly the request it read, and without one leaves that field too; and it leaves alone what users wrote meanwhile. |
| Safety.FinalizationSeesEverything | internal/controller/languagemodel_controller.go:349-353 | The ignored parse error cannot happen: in every reachable state finalization deletes the whole persisted inventory. |
| Safety.PruneSafety | internal/controller/languagemodel_controller.go:584-597 | In every run: what a reconciliation deletes is disjoint from what it applied and was all in the persisted inventory; only owned targets disappear and nothing else changes; after success a remaining target is not owned or opts out. |
| Safety.HonestReady | internal/controller/languagemodel_controller.go:286-312 | In every reachable persisted state: Ready implies last applied = last attempted revision, no Reconciling condition, Healthy neither False nor Unknown; and the observed generation never exceeds the generation. |
| Safety.EndOfReconcile | internal/controller/languagemodel_controller.go:217-231 | Every way out of `reconcile`: success reported with the next interval, or failure reported as Ready=False and ProgressingWithRetry with a retry scheduled exactly unless a status patch of the run itself failed; last applied revision kept on failure; inventory kept unless everything was applied. |
| Safety.EndWithoutSource | internal/controller/languagemodel_controller.go:172-203 | A call that finds no source is retried with Ready=False and revisions and inventory kept, and reports ProgressingWithRetry if and only if the Reconciling condition was there before. |
| Calls.CallConcludes | internal/controller/languagemodel_controller.go:152-231 | For every reply at every moment of every call: which replies end the call, and then the requeue asked for, whether the finalizer stays, and the whole status: Ready with the reason that names what failed, Healthy False exactly after a failed wait, the applied revision replaced exactly on success. |
| Calls.CallTells | internal/controller/languagemodel_controller.go:131-150 | Whatever happens between the last reply and the final patch: the work queue gets the requeue concluded, or a retry with error if the patch fails, and the persisted conditions, revisions, inventory and finalizer are those concluded. |
| Calls.ProgressIsPersisted | internal/controller/languagemodel_controller.go:491-561 | In every run, when a call starts to apply the persisted status is the one it read with Ready and Reconciling in progress and the attempted revision; when it starts to wait, also with the inventory of exactly what was built and Healthy in progress. |
| Calls.RunIsInCall | internal/controller/languagemodel_controller.go:488-623 | Before every external call of every run, copy and persisted status are determined by the status read, the revision, the inventory and the moment, whatever users do meanwhile. |
| Calls.WaitsForEverything | internal/controller/languagemodel_controller.go:1218-1241 | In every run, every health check waits for exactly the objects built from what the call read, which by then are what the persisted inventory holds. |
| Calls.ReadsItsSource | internal/controller/languagemodel_controller.go:432-486 | In every run, the source a call reads is of a supported kind and is the one the reference names, in the own namespace if it names none; with references to other namespaces blocked, never one of another namespace. |
| Safety.ReachableIsGood | internal/controller/languagemodel_controller.go:115-232 | The invariants below hold in every state of every run. |
| Invariants.StepKeepsShape | internal/controller/languagemodel_controller.go:152-164 | Every step keeps: deletion implies finalizer, no finalizer implies an untouched status, the copy is never of a later generation than the object, and finalization only ever runs on an object that is being deleted. |
| Invariants.StepKeepsHonest | internal/controller/languagemodel_controller.go:488-623 | Every step keeps the persisted status honest and the copy's conditions as each point of the run needs them. |
| Invariants.StepKeepsInventoried | internal/controller/languagemodel_controller.go:573-597 | Every step keeps: every inventory parses and stays within the identities its own name can build, and the stale set is old minus new inventory. |
| History.LastAppliedIsHistory | internal/controller/languagemodel_controller.go:539-620 | In every run the last applied revision is the revision of the last persisted call whose every external call succeeded, as an observer of the replies alone would keep it. |
| Convergence.Converges | internal/controller/languagemodel_controller.go:115-232 | From every reachable state in which the object can be reconciled, every run without failures reaches Ready with the built objects live and exactly recorded within 24 steps, and starts at most two calls on the way. |
| Convergence.DistanceDecreases | internal/controller/languagemodel_controller.go:488-623 | The measure: each fault-free step strictly decreases the distance to convergence, and each new call uses up one twelfth. |
| Convergence.NextFaultFree | internal/controller/languagemodel_controller.go:488-623 | Such a run is never stuck: every call has a successful reply. |
| Convergence.Idempotent | internal/controller/languagemodel_controller.go:488-623 | Once converged, any further fault-free steps leave every live object as it is, report no drift, find nothing stale, keep inventory identities and revisions throughout, and come back to the same conditions after every call. |
| Fleet.NonInterference | internal/controller/languagemodel_controller.go:584-597 | Under any interleaving of any number of LanguageModels, no controller's step creates, changes or deletes an object that another LanguageModel can build. |
| Fleet.Projection | internal/controller/languagemodel_controller.go:115-232 | Every LanguageModel sees every interleaving as a run of its own. |
| Fleet.FleetOrphansHaveACause | internal/controller/languagemodel_controller.go:488-623 | Under any interleaving, an orphan of a LanguageModel was abandoned by a step of its own controller and has been an orphan ever since. |
| Fleet.FleetNoOrphans | internal/controller/languagemodel_controller.go:488-623 | Under any interleaving, a LanguageModel whose own steps abandon nothing has no orphans, and every Ready is honest about revisions. |
| Manifests.FamiliesDisjoint | internal/controller/languagemodel_controller.go:644-660 | Two LanguageModels with different names or namespaces can never build the same identity. |
| Manifests.BuildFacts | internal/controller/languagemodel_controller.go:644-660 | Every successful build yields at least one object, distinct identities, all within the four its name allows. |
| Manifests.BuildSucceedsExactly | internal/controller/languagemodel_controller.go:644-660 | A build succeeds if and only if the deployment type is one of the three and, for the two that make a Deployment, each size given can be rounded. |
| Manifests.BuildIdentities | internal/controller/languagemodel_controller.go:662-811 | Exactly which identities are built: the Knative Service, or Deployment and Service, with the volume claim exactly under the PV cache strategy. |
| Manifests.BuildContents | internal/controller/languagemodel_controller.go:813-923 | What every built object holds: the Deployment the model name, the URL of the artifact, the sized requirements, the threads and the volume by cache strategy; the others their parts of engine and artifact. |
| Manifests.FamilyWellFormed | internal/controller/languagemodel_controller.go:676-678 | No identity that can be built contains the separator. |
| Reconciler.Reconcile | internal/controller/languagemodel_controller.go:115-232 | One call of the controller, updating its copy in place: for all replies it extends the run of the machine by exactly one call, without a crash, and returns the machine's outcome; afterwards the persisted status is honest, an owned object that is not recorded was abandoned by some step of the run, every wait of the run was for exactly the objects built and recorded by then, and with references to other namespaces blocked no source of another namespace was read. |
| Reconciler.ReconcileObject | internal/controller/languagemodel_controller.go:152-232 | The branches of `Reconcile` on deletion, finalizer, suspension and source lead to the final patch with the machine's copy and outcome. |
| Reconciler.ReconcileArtifact | internal/controller/languagemodel_controller.go:488-623 | `reconcile` ends with the copy the machine has, a retry exactly after an error, and the next interval otherwise. |
| Reconciler.ReportProgress | internal/controller/languagemodel_controller.go:491-514 | Progress conditions and the attempted revision are patched, and the snapshot of the inventory holds the old entries. |
| Reconciler.BuildObjects | internal/controller/languagemodel_controller.go:516-561 | Client, build and drift patch: on success the objects are exactly the build of the spec and artifact. |
| Reconciler.ApplyAndRecord | internal/controller/languagemodel_controller.go:563-590 | After an apply the copy records exactly its entries, and the stale objects found are those of the machine. |
| Reconciler.Prune | internal/controller/languagemodel_controller.go:1265-1298 | Nothing is deleted with pruning off; with it on, exactly the stale objects are the targets. |
| Reconciler.CheckObjectHealth | internal/controller/languagemodel_controller.go:1203-1263 | Health checking ends with a retry exactly after an error, and with the conditions the machine has; the set it waits for is the one in the label of the machine. |
| Reconciler.ToCheck | internal/controller/languagemodel_controller.go:1218-1227 | What is waited for is everything applied except the LanguageModel itself, in order. |
| Reconciler.OthersIsAll | internal/controller/languagemodel_controller.go:1218-1227 | That guard drops nothing of what a LanguageModel can build. |
| Reconciler.FindSource | internal/controller/languagemodel_controller.go:432-486 | Which references are refused, which kinds are unsupported, and which are looked up, under which kind and name, agrees with `Sources.Resolve`. |
| Reconciler.FinalizeObject | internal/controller/languagemodel_controller.go:346-406 | What finalization deletes is the whole listed inventory, and the finalizer stays after any error. |
| Reconciler.FinalizeObjectStatus | internal/controller/languagemodel_controller.go:286-312 | The handled request, the last touches to the conditions and the final patch end the call, with the machine's outcome or a retry after an error. |
| StagedApply.ApplyObjects | internal/controller/languagemodel_controller.go:1027-1201 | For every list of objects: on success the calls made are exactly the plan, with the last stage sorted, there is one entry for each object, and drift is reported if and only if some entry is a change; on failure the calls made are the plan up to the failing one. If no object is named twice, the staged apply does and reports what one apply of all objects would, or on failure a part of it, and drift is reported if and only if a live object changed. |
| StagedApply.StagesPartition | internal/controller/languagemodel_controller.go:1107-1118 | For every list of objects the three stages together hold each object exactly as often as the list. |
| StagedApply.StageMembers | internal/controller/languagemodel_controller.go:1107-1118 | A stage holds exactly the listed objects of its kind. |
| StagedApply.SplitStages | internal/controller/languagemodel_controller.go:1094-1118 | The loop fills the three stages in order. |
| StagedApply.StagesInOrder | internal/controller/languagemodel_controller.go:1122-1193 | For every list of objects, whether the apply succeeds or fails: whenever an object that is no definition is applied, all definitions have been applied and successfully waited for; and for one that is no class either, all classes too. |
| StagedApply.StopsAtFailure | internal/controller/languagemodel_controller.go:1122-1193 | Every call before the last one succeeded, and the apply goes through the whole plan if and only if its last call succeeded. |
| StagedApply.DriftIsChange | internal/controller/languagemodel_controller.go:1302-1311 | For different objects, drift is reported if and only if the apply changed some live object. |
| StagedApply.BuiltObjectsAreOneStage | internal/controller/languagemodel_controller.go:1107-1118 | Nothing a LanguageModel builds is a definition or a class, so its apply never waits. |
| StagedApply.ApplyPermutation | internal/controller/languagemodel_controller.go:1174-1177 | The order of the objects matters neither for the effect of an apply nor for the entries it reports. |
| StagedApply.ApplyTwice | internal/controller/languagemodel_controller.go:1123-1193 | Applying two lists of different objects one after the other is applying them together. |
| StagedApply.ApplyTwicePartly | internal/controller/languagemodel_controller.go:1123-1193 | Likewise when the second apply fails half-way. |
| Inventory.AddChangeSet | internal/inventory/inventory.go:22-36 | Appends one entry per change, in order, and nothing for a missing change set. |
| Inventory.ListMetadata | internal/inventory/inventory.go:67-79 | Gives the identities in order up to the first entry that does not parse, with an error if and only if there is one. |
| Inventory.List | internal/inventory/inventory.go:38-65 | Succeeds if and only if every entry parses, with a sorted permutation of the recorded objects and versions. |
| Inventory.Diff | internal/inventory/inventory.go:81-122 | Succeeds if and only if both inventories parse; the result is sorted and free of duplicates, its identities are exactly those of the first inventory absent from the second, and each version is the recorded one. |
| Inventory.RecordedRoundTrip | internal/inventory/inventory.go:22-79 | For every change set with separator-free fields, recording and listing gives back identities and versions in order. |
| Inventory.VersionOfFirst | internal/inventory/inventory.go:83-90 | The version search never falls through for a recorded identity: it gives the version of the first entry with that ID. |
| Inventory.VersionChangeIsNotStale | internal/inventory/inventory.go:103-106 | A version change alone makes nothing stale. |
| ObjectIds.RoundTrip | api/v1alpha1/inventory_types.go:12-14 | For every identity: its printed form reads back as itself if no field contains the separator, and does not read back at all otherwise. |
| ObjectIds.PrintedFields | api/v1alpha1/inventory_types.go:12-14 | The printed form of a separator-free identity has the fields namespace, name, group and kind, in this order. |
| ObjectIds.PrintParse | api/v1alpha1/inventory_types.go:12-14 | The parser accepts only printed identities: printing what was parsed gives the string back. |
| ObjectIds.PrintInjective | internal/inventory/inventory.go:85 | Separator-free identities with the same ID are the same. |
| Sources.ResolveExactly | internal/controller/languagemodel_controller.go:432-486 | A reference is denied if and only if it names another namespace and that is blocked; otherwise it is looked up if and only if its kind is one of three, under its own name, in the namespace it names or else the LanguageModel's. |
| Sources.RequestsForRevisionChangeOf | internal/controller/languagemodel_indexers.go:14-44 | The requests are exactly the LanguageModels whose reference resolves to the source, each once, and none without an artifact. |
| Sources.IndexAgrees | internal/controller/languagemodel_indexers.go:46-63 | The index finds a LanguageModel if and only if resolving its reference does. |
| Sources.KeyInjective | internal/controller/languagemodel_indexers.go:58 | The key of an object's namespace and name is the key of no other pair. |
| Sources.NoMissedRevision | internal/controller/source_predicate.go:13-38 | Over any stream of states that starts without an artifact, the last event that fired carried exactly the current revision, at the moment it became current. |
| Sources.EveryRevisionEnqueued | internal/controller/languagemodel_indexers.go:25-42 | A LanguageModel that refers to the source throughout was enqueued when the current revision became current. |
| Quantities.RoundGigaBound | internal/controller/languagemodel_controller.go:625-642 | Rounding succeeds if and only if the input parses in a plain decimal or binary format; what it renders parses again in the same format, is at least factor times the input, and exceeds it by less than the stated bound. |
| Quantities.RoundGigaExactly | internal/controller/languagemodel_controller.go:625-642 | The exact string: with v the least number of whole giga units that hold the amount, it prints the least integer that is not below the factor times v, with the suffix of the input's format. |
| Quantities.RoundGigaMonotone | internal/controller/languagemodel_controller.go:625-642 | A larger input of the same format never renders a smaller amount. |
| Quantities.DecimalIdempotent | internal/controller/languagemodel_controller.go:634-638 | Whole decimal giga units stay as they are with factor one. |
| Quantities.BinaryIdempotentOnlyAtZero | internal/controller/languagemodel_controller.go:633-636 | Whole binary giga units stay as they are with factor one if and only if there are none. |
| Quantities.UnusualFormats | internal/controller/languagemodel_controller.go:633-641 | A bare `0` is refused, and an amount kept in binary units is none at all or at least one. |
| Quantities.ParsePrintedGiga | internal/controller/languagemodel_controller.go:744-747 | A rendered size parses to exactly the rounded amount. |
| Quantities.ParseFraction | internal/controller/languagemodel_controller.go:626 | A printed number with a decimal fraction and a suffix parses to its decimal value in units of the suffix. |
| Quantities.UnitLadders | internal/controller/languagemodel_controller.go:626 | The units: one is the unit without a suffix, each decimal unit is a thousand of the one before, and each binary unit 1024 of the one before. |
| Resources.SizeResources | internal/controller/languagemodel_controller.go:728-773 | Sizes a copy in place, leaves the spec as it is, and gives exactly the requirements specified. |
| Resources.SizedRequirementsValid | internal/controller/languagemodel_controller.go:728-773 | For every spec and metadata: sizing fails exactly when a given size cannot be rounded; requests stay within limits; CPU and each sized resource get limit = request; a sized resource gets exactly the amount rounded with its own factor, which covers what is asked; everything else is as in the spec. |
| Resources.CpuLimitKept | internal/controller/languagemodel_controller.go:735 | CPU is always limited; a CPU limit of the spec survives if and only if it equals the request, and the limit is zero when nothing is requested. |
| Resources.ThreadsBelowCpu | internal/controller/languagemodel_controller.go:737-742 | Exactly one thread up to two cores; above that fewer than cores, by one core at most. |

## Left out

- Resources.ThreadsBelowCpu: amounts are exact reals, because the rounding of float64 is not what the code is about; the same holds for the sizes in Quantities.
- Quantities.ParsePrintedGiga: quantities are unsigned and exact; negative amounts, signed decimal exponents, the rounding of amounts below a billionth and the cap on amounts beyond int64 are not modelled. The library is not part of this model: that a bare `0` has no format, and that an amount in binary units below one is kept in decimal units, are assumptions about it.
- ObjectIds.RoundTrip: the transcoding of `:` in the names of RBAC objects, which the library adds to the documented format, because no built object is one.
- Inventory.AddChangeSet: entries are a sequence field, so growing and sharing of backing arrays is not modelled; a missing list of entries is the same as an empty one.
- Reconciler.Prune: deletion is described by its effect on live objects; background propagation and the change set it returns for events are not.
- Reconciler.CheckObjectHealth: the recovery event, like all events.
- Reconciler.FinalizeObjectStatus: the filter of not-found errors is not there, because no reachable state needs it.
- StagedApply.ApplyObjects: what the library does to an object that a list names twice is left open; it reports one entry per object, so a stage with no entries, which would skip its wait, does not occur.
- Reader.ReadyNowRunsItsSpec: nothing is promised of a suspended object or one that is being deleted, because it is not true of them.
- The branch of `Reconcile` for a missing artifact file: nothing that `reconcile` calls returns that error.
- Force and if-not-present apply modes, the clean-up of fields of other managers, impersonation, status polling, and the writing of labels: the library's own business.
- Events, metrics, logs, condition messages, jitter, intervals, timeouts and their getters: outcomes say only what kind of requeue is asked for.
- Pod templates, environment variables, images and chat formats: a manifest is kept as the parts of spec and artifact it is built from.
- `SetupWithManager`, the filter on generation changes, list errors in the index query, and `main`: plumbing.
- `ReferenceToObjMetadataSet` and the job status reader, which no built object uses.
- Other finalizers, outside edits of status, stale reads, and several workers on one object: excluded by the assumptions above.
- The Stalled condition, which the controller owns but never sets.
