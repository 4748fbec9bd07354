/**
 A concrete run in which a pruning error leaves an orphan: a model cached on a
 volume is reconciled, its spec is changed to use none, and deleting the volume
 claim fails.
 */
module PruneError {
  import opened Wrappers
  import opened ObjectIds
  import opened ChangeSets
  import opened Inventory
  import opened Resources
  import opened Api
  import opened Manifests
  import opened Cluster
  import Sources
  import opened Machine
  import opened Invariants
  import opened Convergence

  const CACHED := Spec(
    SourceReference("OCIRepository", "model", ""), Engine("Default", Requirements(map[], map[]), ""), "PV", true, false)

  const UNCACHED := CACHED.(cacheStrategy := "None")

  const ARTIFACT := Artifact("v1", "", map[])

  /** A call that succeeds, or what users do. */
  predicate Smooth(l: Label) {
    FaultFree(l, ARTIFACT) || UserLabel(l)
  }

  /** A run from the start in which nothing has failed and nobody has interfered, and which ends in this state. */
  ghost predicate Reaches(noCross: bool, k: NamespacedName, ws: seq<World>, ls: seq<Label>, w: World) {
    IsRunFromStart(noCross, k, ws, ls) && ws[|ls|] == w && forall l :: l in ls ==> Smooth(l)
  }

  lemma Then(noCross: bool, k: NamespacedName, ws: seq<World>, ls: seq<Label>, w: World, l: Label)
    returns (ws': seq<World>, ls': seq<Label>)
    requires Reaches(noCross, k, ws, ls, w) && Allowed(k, w, l) && Smooth(l)
    ensures Reaches(noCross, k, ws', ls', Step(noCross, k, w, l))
  {
    hide Allowed, Step, Smooth;
    RunSnoc(noCross, k, ws, ls, l);
    ws', ls' := ws + [Step(noCross, k, w, l)], ls + [l];
  }

  /** Between two calls, with the finalizer in place and this spec and inventory. */
  predicate AtRest(c: Cell, spec: Spec, inventory: Option<seq<ResourceRef>>) {
    && c.pc == Idle && c.stored.Some?
    && var lm := c.stored.value;
    && lm.finalizer && !lm.deleting && lm.spec == spec && lm.status.inventory == inventory
  }

  /** In a call that has built the objects for this spec and is about to apply them. */
  predicate AboutToApply(k: NamespacedName, c: Cell, spec: Spec, inventory: Option<seq<ResourceRef>>) {
    && c.pc == ApplyObjects && c.stored.Some?
    && c.stored.value.finalizer && !c.stored.value.deleting && c.stored.value.spec == spec
    && c.mem.finalizer && c.mem.spec == spec && c.mem.status.inventory == inventory
    && c.artifact == ARTIFACT && Build(k, spec, ARTIFACT) == Success(c.objs)
  }

  // ---------- the steps of one call ----------

  lemma CallStarts(noCross: bool, k: NamespacedName, c: Cell, spec: Spec, inventory: Option<seq<ResourceRef>>)
    requires spec == CACHED || spec == UNCACHED
    requires AtRest(c, spec, inventory)
    ensures
      var c1 := OnGet(noCross, k, c);
      var c2 := OnSource(c1, HasArtifact(ARTIFACT));
      var c3 := OnPatch(c2, Patched);
      var c4 := OnPatch(c3, Patched);
      && c1.pc == GetSource
      && Sources.Resolve(false, k, c1.mem.spec.sourceRef) ==
         Sources.Lookup("OCIRepository", NamespacedName(k.namespace, "model"))
      && c2.pc == PatchProgressing && c3.pc == PatchAttempted && c4.pc == GetClient
      && c2.stored.Some? && c3.stored.Some?
      && c4.stored.Some? && c4.stored.value.finalizer && !c4.stored.value.deleting && c4.stored.value.spec == spec
      && c4.mem.finalizer && c4.mem.spec == spec && c4.mem.status.inventory == inventory && c4.artifact == ARTIFACT
  {
    assert |"OCIRepository"| == 13;
  }

  lemma Builds(k: NamespacedName, spec: Spec)
    requires spec == CACHED || spec == UNCACHED
    ensures Build(k, spec, ARTIFACT).Success?
    ensures Ids(Build(k, CACHED, ARTIFACT).value) == {DeploymentId(k), ServiceId(k), VolumeClaimId(k)}
    ensures Build(k, UNCACHED, ARTIFACT).Success?
    ensures Ids(Build(k, UNCACHED, ARTIFACT).value) == {DeploymentId(k), ServiceId(k)}
  {
    assert |"PV"| == 2 && |"None"| == 4;
    assert |"Default"| == 7 && |"KnativeService"| == 14;
    BuildIdentities(k, CACHED, ARTIFACT);
    BuildIdentities(k, UNCACHED, ARTIFACT);
  }

  lemma CallApplies(k: NamespacedName, c: Cell, spec: Spec, inventory: Option<seq<ResourceRef>>)
    requires spec == CACHED || spec == UNCACHED
    requires c.pc == GetClient && c.stored.Some?
    requires c.stored.value.finalizer && !c.stored.value.deleting && c.stored.value.spec == spec
    requires c.mem.finalizer && c.mem.spec == spec && c.mem.status.inventory == inventory && c.artifact == ARTIFACT
    ensures
      var c1 := OnClient(k, c, true);
      && c1.pc == PatchDrift && c1.stored.Some?
      && AboutToApply(k, OnPatch(c1, Patched), spec, inventory)
  {
    Builds(k, spec);
    hide Build;
  }

  lemma FirstHalf(
      noCross: bool, k: NamespacedName, ws: seq<World>, ls: seq<Label>, w: World,
      spec: Spec, inventory: Option<seq<ResourceRef>>)
    returns (ws': seq<World>, ls': seq<Label>, w': World)
    requires spec == CACHED || spec == UNCACHED
    requires Reaches(noCross, k, ws, ls, w) && AtRest(w.cell, spec, inventory)
    ensures Reaches(noCross, k, ws', ls', w') && w'.live == w.live
    ensures w'.cell == OnPatch(OnPatch(OnSource(OnGet(noCross, k, w.cell), HasArtifact(ARTIFACT)), Patched), Patched)
  {
    CallStarts(noCross, k, w.cell, spec, inventory);
    var found := SourceIs("OCIRepository", NamespacedName(k.namespace, "model"), HasArtifact(ARTIFACT));
    var w1 := w.(cell := OnGet(noCross, k, w.cell));
    var w2 := w.(cell := OnSource(w1.cell, HasArtifact(ARTIFACT)));
    var w3 := w.(cell := OnPatch(w2.cell, Patched));
    w' := w.(cell := OnPatch(w3.cell, Patched));
    GetStep(noCross, k, w);
    SourceStep(noCross, k, w1, "OCIRepository", NamespacedName(k.namespace, "model"), HasArtifact(ARTIFACT));
    PatchStep(noCross, k, w2, Patched);
    PatchStep(noCross, k, w3, Patched);
    assert AtRest(w.cell, spec, inventory) ==> w.cell.pc == Idle;
    assert Smooth(Get) && Smooth(found) && Smooth(Patch(Patched));
    hide *;
    ws', ls' := Then(noCross, k, ws, ls, w, Get);
    ws', ls' := Then(noCross, k, ws', ls', w1, found);
    ws', ls' := Then(noCross, k, ws', ls', w2, Patch(Patched));
    ws', ls' := Then(noCross, k, ws', ls', w3, Patch(Patched));
  }

  /** A call that has not failed so far. */
  lemma UpToApply(
      noCross: bool, k: NamespacedName, ws: seq<World>, ls: seq<Label>, w: World,
      spec: Spec, inventory: Option<seq<ResourceRef>>)
    returns (ws': seq<World>, ls': seq<Label>, w': World)
    requires spec == CACHED || spec == UNCACHED
    requires Reaches(noCross, k, ws, ls, w) && AtRest(w.cell, spec, inventory)
    ensures Reaches(noCross, k, ws', ls', w') && AboutToApply(k, w'.cell, spec, inventory) && w'.live == w.live
  {
    var w0;
    ws', ls', w0 := FirstHalf(noCross, k, ws, ls, w, spec, inventory);
    CallStarts(noCross, k, w.cell, spec, inventory);
    CallApplies(k, w0.cell, spec, inventory);
    var w1 := w.(cell := OnClient(k, w0.cell, true));
    w' := w.(cell := OnPatch(w1.cell, Patched));
    ClientStep(noCross, k, w0, true);
    PatchStep(noCross, k, w1, Patched);
    assert Smooth(Client(true)) && Smooth(Patch(Patched));
    hide *;
    ws', ls' := Then(noCross, k, ws', ls', w0, Client(true));
    ws', ls' := Then(noCross, k, ws', ls', w1, Patch(Patched));
  }

  // ---------- the run ----------

  lemma FirstSteps(noCross: bool, k: NamespacedName)
    ensures
      var c1 := INITIAL_CELL.(stored := OnUser(None, Created(CACHED)));
      var c2 := OnGet(noCross, k, c1);
      && c1.pc == Idle && c1.stored.Some? && c2.pc == Finish && c2.stored.Some?
      && AtRest(OnFinish(c2, Patched), CACHED, None)
  {
  }

  /** The object is created and gets its finalizer, in an empty cluster. */
  lemma Creation(noCross: bool, k: NamespacedName) returns (ws: seq<World>, ls: seq<Label>, w: World)
    requires ValidName(k)
    ensures Reaches(noCross, k, ws, ls, w) && AtRest(w.cell, CACHED, None) && w.live == map[]
  {
    var w0 := World(INITIAL_CELL, map[]);
    ws, ls := [w0], [];
    var w1 := w0.(cell := INITIAL_CELL.(stored := OnUser(None, Created(CACHED))));
    var w2 := w0.(cell := OnGet(noCross, k, w1.cell));
    FirstSteps(noCross, k);
    assert Step(noCross, k, w0, Created(CACHED)) == w1 && Allowed(k, w0, Created(CACHED));
    GetStep(noCross, k, w1);
    PatchStep(noCross, k, w2, Patched);
    w := w0.(cell := OnFinish(w2.cell, Patched));
    assert Reaches(noCross, k, ws, ls, w0);
    hide *;
    ws, ls := Then(noCross, k, ws, ls, w0, Created(CACHED));
    ws, ls := Then(noCross, k, ws, ls, w1, Get);
    ws, ls := Then(noCross, k, ws, ls, w2, Patch(Patched));
  }

  /** In a call that has applied and recorded everything, with these objects found stale. */
  predicate Pruning(c: Cell, spec: Spec, refs: seq<ResourceRef>, stale: set<ObjMetadata>) {
    && c.pc == DeleteStale && c.stored.Some?
    && c.stored.value.finalizer && !c.stored.value.deleting && c.stored.value.spec == spec
    && c.mem.finalizer && c.mem.spec == spec && c.mem.status.inventory == Some(refs) && refs != []
    && c.stale == stale
  }

  /** A successful apply, with everything recorded and the rest of the old inventory found stale. */
  lemma Applies(
      noCross: bool, k: NamespacedName, ws: seq<World>, ls: seq<Label>, w: World,
      spec: Spec, inventory: Option<seq<ResourceRef>>)
    returns (ws': seq<World>, ls': seq<Label>, w': World, refs: seq<ResourceRef>)
    requires ValidName(k) && (spec == CACHED || spec == UNCACHED)
    requires Reaches(noCross, k, ws, ls, w) && AboutToApply(k, w.cell, spec, inventory)
    requires inventory.Some? ==> AllParse(inventory.value)
    ensures Reaches(noCross, k, ws', ls', w')
    ensures AllParse(refs) && MetaSet(refs) == Ids(w.cell.objs)
    ensures Pruning(w'.cell, spec, refs, MetaSet(if inventory.Some? then inventory.value else []) - Ids(w.cell.objs))
    ensures w'.live == ApplyTo(k, w.live, Desired(w.cell.objs))
  {
    hide *;
    var entries := ReportedEntries(k, w, spec, inventory);
    refs := Refs(entries);
    w' := World(AfterApply(w.cell, refs), ApplyTo(k, w.live, Desired(w.cell.objs)));
    AppliedStep(noCross, k, w, entries);
    AppliedCell(k, w.cell, spec, inventory, refs);
    AppliesAreSmooth(entries);
    ws', ls' := Then(noCross, k, ws, ls, w, Apply(Applied(entries)));
  }

  lemma AppliesAreSmooth(entries: seq<ChangeSetEntry>)
    ensures Smooth(Apply(Applied(entries)))
  {
  }

  lemma ReportedEntries(k: NamespacedName, w: World, spec: Spec, inventory: Option<seq<ResourceRef>>)
    returns (entries: seq<ChangeSetEntry>)
    requires ValidName(k) && AboutToApply(k, w.cell, spec, inventory)
    ensures w.cell.pc == ApplyObjects && entries == EntriesOf(k, w.live, w.cell.objs)
    ensures AllParse(Refs(entries)) && Refs(entries) != [] && MetaSet(Refs(entries)) == Ids(w.cell.objs)
  {
    entries := EntriesOf(k, w.live, w.cell.objs);
    AppliedInventory(k, w, entries);
    hide Refs, AllParse, MetaSet, Ids, EntriesOf;
  }

  lemma AppliedCell(k: NamespacedName, c: Cell, spec: Spec, inventory: Option<seq<ResourceRef>>, refs: seq<ResourceRef>)
    requires (spec == CACHED || spec == UNCACHED) && AboutToApply(k, c, spec, inventory)
    requires inventory.Some? ==> AllParse(inventory.value)
    requires AllParse(refs) && refs != []
    ensures Pruning(
              AfterApply(c, refs), spec, refs, MetaSet(if inventory.Some? then inventory.value else []) - MetaSet(refs))
  {
    assert AllParse([]);
    hide Build, AllParse, MetaSet, CheckHealth;
  }

  lemma AppliedStep(noCross: bool, k: NamespacedName, w: World, entries: seq<ChangeSetEntry>)
    requires w.cell.pc == ApplyObjects && entries == EntriesOf(k, w.live, w.cell.objs)
    ensures Allowed(k, w, Apply(Applied(entries)))
    ensures Step(noCross, k, w, Apply(Applied(entries))) ==
            World(AfterApply(w.cell, Refs(entries)), ApplyTo(k, w.live, Desired(w.cell.objs)))
  {
    hide AfterApply, EntriesOf, Refs, ApplyTo, Desired;
  }

  lemma LastSteps(k: NamespacedName, c: Cell, spec: Spec, refs: seq<ResourceRef>, stale: set<ObjMetadata>)
    requires Pruning(c, spec, refs, stale)
    ensures
      var c1 := CheckHealth(c);
      var c2 := OnPatch(c1, Patched);
      var c3 := OnWait(c2, true);
      var c4 := OnPatch(c3, Patched);
      && c1.pc == PatchChecking && c1.stored.Some? && c2.pc == WaitHealthy && c3.pc == PatchHealthy && c3.stored.Some?
      && c4.pc == Finish && c4.stored.Some?
      && AtRest(OnFinish(c4, Patched), spec, Some(refs))
  {
  }

  /** A call that succeeds to its end, with nothing to prune. */
  lemma Succeeds(
      noCross: bool, k: NamespacedName, ws: seq<World>, ls: seq<Label>, w: World, spec: Spec, refs: seq<ResourceRef>)
    returns (ws': seq<World>, ls': seq<Label>, w': World)
    requires Reaches(noCross, k, ws, ls, w) && Pruning(w.cell, spec, refs, {})
    ensures Reaches(noCross, k, ws', ls', w') && AtRest(w'.cell, spec, Some(refs)) && w'.live == w.live
  {
    var w1 := w.(cell := CheckHealth(w.cell));
    var w2 := w.(cell := OnPatch(w1.cell, Patched));
    var w3 := w.(cell := OnWait(w2.cell, true));
    var w4 := w.(cell := OnPatch(w3.cell, Patched));
    w' := w.(cell := OnFinish(w4.cell, Patched));
    LastSteps(k, w.cell, spec, refs, {});
    DeleteNothingStale(k, w);
    DeleteStep(noCross, k, w, DeletedAll);
    PatchStep(noCross, k, w1, Patched);
    WaitStep(noCross, k, w2, Awaited(k, w2.cell.mem), true);
    PatchStep(noCross, k, w3, Patched);
    PatchStep(noCross, k, w4, Patched);
    assert w.cell.pc == DeleteStale && w.cell.stale == {};
    assert Smooth(Delete(DeletedAll)) && Smooth(Wait(Awaited(k, w2.cell.mem), true)) && Smooth(Patch(Patched));
    hide *;
    ws', ls' := Then(noCross, k, ws, ls, w, Delete(DeletedAll));
    ws', ls' := Then(noCross, k, ws', ls', w1, Patch(Patched));
    ws', ls' := Then(noCross, k, ws', ls', w2, Wait(Awaited(k, w2.cell.mem), true));
    ws', ls' := Then(noCross, k, ws', ls', w3, Patch(Patched));
    ws', ls' := Then(noCross, k, ws', ls', w4, Patch(Patched));
  }

  lemma DeleteNothingStale(k: NamespacedName, w: World)
    requires w.cell.stale == {}
    ensures OnDeleteStale(k, w, DeletedAll) == w.(cell := CheckHealth(w.cell))
  {
    hide CheckHealth;
  }

  /** Nothing of the failing deletion is done, and the call ends with its final patch persisted. */
  lemma PruningFails(
      noCross: bool, k: NamespacedName, ws: seq<World>, ls: seq<Label>, w: World,
      spec: Spec, refs: seq<ResourceRef>, stale: set<ObjMetadata>)
    returns (ws': seq<World>, w': World)
    requires Reaches(noCross, k, ws, ls, w) && Pruning(w.cell, spec, refs, stale)
    ensures IsRunFromStart(noCross, k, ws', ls + [Delete(DeleteFailed({}))] + [Patch(Patched)])
    ensures ws'[|ls| + 2] == w' && AtRest(w'.cell, spec, Some(refs)) && w'.live == w.live
  {
    var w1 := w.(cell := Fail(w.cell, PruneFailed));
    w' := w.(cell := OnFinish(w1.cell, Patched));
    DeleteStep(noCross, k, w, DeleteFailed({}));
    PatchStep(noCross, k, w1, Patched);
    assert DeleteFrom(k, w.live, stale * {}) == w.live;
    assert w1.cell.pc == Finish && AtRest(w'.cell, spec, Some(refs));
    assert w.cell.pc == DeleteStale && w1.cell.stored.Some?;
    assert OnDeleteStale(k, w, DeleteFailed({})) == w1;
    hide Step, Allowed, AtRest, Pruning, OnFinish, Fail, Initial;
    RunSnoc(noCross, k, ws, ls, Delete(DeleteFailed({})));
    RunSnoc(noCross, k, ws + [w1], ls + [Delete(DeleteFailed({}))], Patch(Patched));
    ws' := ws + [w1] + [w'];
  }

  lemma ClaimSurvives(k: NamespacedName, live: LiveObjects, objs1: seq<Object>, objs2: seq<Object>)
    requires live == ApplyTo(k, ApplyTo(k, map[], Desired(objs1)), Desired(objs2))
    requires VolumeClaimId(k) in Ids(objs1) && VolumeClaimId(k) !in Ids(objs2)
    ensures VolumeClaimId(k) in Owned(k, live)
  {
    hide Desired;
  }

  /**
   For every LanguageModel there is a run in which nobody interferes and nothing
   fails except one deletion at its end, after which a volume claim is live,
   owned, and in no inventory.
   */
  lemma PruneErrorOrphans(noCross: bool, k: NamespacedName) returns (ws: seq<World>, ls: seq<Label>)
    requires ValidName(k)
    ensures forall l :: l in ls ==> Smooth(l)
    ensures IsRunFromStart(noCross, k, ws, ls + [Delete(DeleteFailed({}))] + [Patch(Patched)])
    ensures
      var e := ws[|ls| + 2];
      && e.cell.pc == Idle && e.cell.stored.Some? && e.cell.stored.value.finalizer
      && VolumeClaimId(k) in Owned(k, e.live) && VolumeClaimId(k) !in RecordedIn(e.cell.stored)
  {
    hide Build, Reaches, AtRest, AboutToApply, Pruning, Owned, ApplyTo, Ids, MetaSet, AllParse, Allowed, Step;
    hide IsRunFromStart, Smooth;
    Builds(k, CACHED);
    assert MetaSet([]) == {} by { NothingRecorded(); }
    var w, refs, refs';
    ws, ls, w := Creation(noCross, k);
    ws, ls, w := UpToApply(noCross, k, ws, ls, w, CACHED, None);
    var objs1 := Built(k, w.cell, CACHED, None);
    ws, ls, w, refs := Applies(noCross, k, ws, ls, w, CACHED, None);
    assert {} - Ids(objs1) == {};
    ws, ls, w := Succeeds(noCross, k, ws, ls, w, CACHED, refs);
    ws, ls, w := Edits(noCross, k, ws, ls, w, refs);
    ws, ls, w := UpToApply(noCross, k, ws, ls, w, UNCACHED, Some(refs));
    var objs2 := Built(k, w.cell, UNCACHED, Some(refs));
    ws, ls, w, refs' := Applies(noCross, k, ws, ls, w, UNCACHED, Some(refs));
    SmoothRun(noCross, k, ws, ls, w);
    ws, w := PruningFails(noCross, k, ws, ls, w, UNCACHED, refs', MetaSet(refs) - Ids(objs2));
    ClaimIsDistinct(k);
    ClaimSurvives(k, w.live, objs1, objs2);
    RestFacts(w.cell, UNCACHED, refs');
  }

  lemma SmoothRun(noCross: bool, k: NamespacedName, ws: seq<World>, ls: seq<Label>, w: World)
    requires Reaches(noCross, k, ws, ls, w)
    ensures forall l :: l in ls ==> Smooth(l)
  {
  }

  lemma RestFacts(c: Cell, spec: Spec, refs: seq<ResourceRef>)
    requires AtRest(c, spec, Some(refs))
    ensures c.pc == Idle && c.stored.Some? && c.stored.value.finalizer
    ensures RecordedIn(c.stored) == MetaSet(refs)
  {
    hide MetaSet;
  }

  lemma NothingRecorded()
    ensures MetaSet([]) == {}
  {
  }

  lemma Built(k: NamespacedName, c: Cell, spec: Spec, inventory: Option<seq<ResourceRef>>) returns (objs: seq<Object>)
    requires AboutToApply(k, c, spec, inventory)
    ensures objs == c.objs && Build(k, spec, ARTIFACT) == Success(objs)
  {
    objs := c.objs;
  }

  lemma Edits(noCross: bool, k: NamespacedName, ws: seq<World>, ls: seq<Label>, w: World, refs: seq<ResourceRef>)
    returns (ws': seq<World>, ls': seq<Label>, w': World)
    requires Reaches(noCross, k, ws, ls, w) && AtRest(w.cell, CACHED, Some(refs))
    ensures Reaches(noCross, k, ws', ls', w') && AtRest(w'.cell, UNCACHED, Some(refs)) && w'.live == w.live
  {
    hide Reaches;
    ws', ls' := Then(noCross, k, ws, ls, w, Edited(UNCACHED));
    w' := Step(noCross, k, w, Edited(UNCACHED));
  }

  lemma ClaimIsDistinct(k: NamespacedName)
    ensures VolumeClaimId(k) != DeploymentId(k) && VolumeClaimId(k) != ServiceId(k)
  {
    assert |"PersistentVolumeClaim"| == 21 && |"Deployment"| == 10 && |"Service"| == 7;
  }
}
