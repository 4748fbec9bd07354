/**
 What a reader of the persisted object may conclude when it is Ready for its
 current generation, and when that is not to be trusted.
 */
module Reader {
  import opened Wrappers
  import opened ObjectIds
  import opened Inventory
  import opened Api
  import opened Sources
  import opened Manifests
  import opened Cluster
  import opened Machine
  import opened Invariants
  import opened Safety
  import opened Observation
  import opened Success

  /** Reports to be Ready for its current generation. */
  predicate ReadyNow(lm: LanguageModel) {
    IsReady(lm.status) && lm.status.observedGeneration == lm.generation
  }

  /** This artifact is of the last applied revision, and the object's spec builds these objects from it. */
  predicate BuiltFrom(k: NamespacedName, lm: LanguageModel, objs: seq<Object>, a: Artifact) {
    a.revision == lm.status.lastApplied && Build(k, lm.spec, a) == Success(objs)
  }

  ghost predicate Builds(k: NamespacedName, lm: LanguageModel, objs: seq<Object>) {
    exists a: Artifact :: BuiltFrom(k, lm, objs, a)
  }

  /**
   The object's spec is running: from some artifact of the last applied revision
   it builds exactly what is recorded, and every object is live as built.
   */
  ghost predicate RunsItsSpec(k: NamespacedName, lm: LanguageModel, live: LiveObjects) {
    exists objs :: Builds(k, lm, objs) && Recorded(lm) == Ids(objs) && AllAsBuilt(k, live, objs)
  }

  // ---------- what every step keeps ----------

  /** A run that has persisted its progress is not Ready until its final patch. */
  predicate Unready(c: Cell) {
    Reconciling(c.pc) && c.pc != PatchProgressing && c.stored.Some? ==> !IsReady(c.stored.value.status)
  }

  /** An object that is Ready now has the objects last built as its spec builds them. */
  ghost predicate Solid(
      k: NamespacedName, stored: Option<LanguageModel>, objs: seq<Object>, live: LiveObjects, undisturbed: bool) {
    stored.Some? && ReadyNow(stored.value) && !Skips(stored.value) ==>
      && Builds(k, stored.value, objs)
      && Recorded(stored.value) == Ids(objs)
      && (undisturbed ==> AllAsBuilt(k, live, objs))
  }

  ghost predicate SolidWorld(k: NamespacedName, w: World, undisturbed: bool) {
    Solid(k, w.cell.stored, w.cell.objs, w.live, undisturbed)
  }

  lemma PatchKeepsUnready(c: Cell, r: PatchReply)
    requires IsPatch(c.pc) && Honest(c) && Unready(c)
    ensures Unready(if c.pc == Finish then OnFinish(c, r) else OnPatch(c, r))
  {
    hide FinalizeStatus;
  }

  lemma WorkIsInside(k: NamespacedName, w: World, l: Label)
    requires Allowed(k, w, l) && WorkLabel(w.cell.pc, l) && !l.SourceIs?
    ensures Reconciling(w.cell.pc) && w.cell.pc != PatchProgressing
  {
  }

  lemma StepKeepsUnready(noCross: bool, k: NamespacedName, w: World, l: Label)
    requires Allowed(k, w, l) && Honest(w.cell) && Unready(w.cell)
    ensures Unready(Step(noCross, k, w, l).cell)
  {
    hide Honest, OnGet, OnPatch, OnClient, OnApply, OnDeleteStale, OnFinish, Reports, Owned, FinalTargets, DeleteFrom;
    if l.Patch? {
      PatchStep(noCross, k, w, l.patch);
      PatchKeepsUnready(w.cell, l.patch);
    } else if WorkLabel(w.cell.pc, l) && !l.SourceIs? {
      WorkFrame(noCross, k, w, l);
      WorkIsInside(k, w, l);
    } else if l.Get? {
      GetKeepsUnready(noCross, k, w.cell);
    }
  }

  lemma GetKeepsUnready(noCross: bool, k: NamespacedName, c: Cell)
    requires c.pc == Idle
    ensures Unready(OnGet(noCross, k, c))
  {
    hide Resolve;
  }

  /** What was disturbed is whole again after a successful apply. */
  predicate UndisturbedAfter(undisturbed: bool, l: Label) {
    if l.Apply? then l.apply.Applied? else !l.Outside? && undisturbed
  }

  lemma SameSpecBuilds(k: NamespacedName, lm: LanguageModel, other: LanguageModel, objs: seq<Object>)
    requires Builds(k, lm, objs)
    requires other.spec == lm.spec && other.status.lastApplied == lm.status.lastApplied
    ensures Builds(k, other, objs)
  {
    var a :| BuiltFrom(k, lm, objs, a);
    assert BuiltFrom(k, other, objs, a);
  }

  lemma UserKeepsSolid(k: NamespacedName, w: World, l: Label, undisturbed: bool)
    requires Shape(w.cell) && UserLabel(l) && SolidWorld(k, w, undisturbed)
    ensures Solid(k, OnUser(w.cell.stored, l), w.cell.objs, w.live, undisturbed)
  {
    hide Builds, MetaSet, Ids, AllAsBuilt, RunShape;
    if l.Requested? && w.cell.stored.Some? && Builds(k, w.cell.stored.value, w.cell.objs) {
      SameSpecBuilds(k, w.cell.stored.value, OnUser(w.cell.stored, l).value, w.cell.objs);
    }
  }

  /** The patches in the middle of a call persist no Ready object. */
  lemma PatchKeepsSolid(k: NamespacedName, w: World, r: PatchReply, undisturbed: bool)
    requires IsPatch(w.cell.pc) && w.cell.pc != Finish && Honest(w.cell) && SolidWorld(k, w, undisturbed)
    ensures SolidWorld(k, w.(cell := OnPatch(w.cell, r)), undisturbed)
  {
    hide Builds, MetaSet, Ids, AllAsBuilt;
  }

  lemma FinishKeepsSolid(k: NamespacedName, w: World, r: PatchReply, undisturbed: bool)
    requires w.cell.pc == Finish && Shape(w.cell) && Tied(w.cell) && Faithful(k, w.cell)
    requires SolidWorld(k, w, undisturbed) && LiveAsBuilt(k, w, undisturbed)
    ensures SolidWorld(k, w.(cell := OnFinish(w.cell, r)), undisturbed)
  {
    hide Build, MetaSet, Ids, AllAsBuilt, Builds, StoredShape;
    var c, d := w.cell, OnFinish(w.cell, r);
    FinalizeKeepsReady(c.mem);
    if Persists(r) && d.stored.Some? && ReadyNow(d.stored.value) && !Skips(d.stored.value) {
      assert IsReady(c.mem.status) && Present(c);
      FoundArtifact(k, d.stored.value, c.objs, c.artifact);
    }
  }

  lemma FoundArtifact(k: NamespacedName, lm: LanguageModel, objs: seq<Object>, a: Artifact)
    requires BuiltFrom(k, lm, objs, a)
    ensures Builds(k, lm, objs)
  {
    hide BuiltFrom;
  }

  /** While the object is not Ready there is nothing to keep. */
  lemma UnreadyIsSolid(k: NamespacedName, w: World, objs: seq<Object>, live: LiveObjects, undisturbed: bool)
    requires Unready(w.cell) && Reconciling(w.cell.pc) && w.cell.pc != PatchProgressing
    ensures Solid(k, w.cell.stored, objs, live, undisturbed)
  {
    hide Builds, MetaSet, Ids, AllAsBuilt;
  }

  /** While the object is being deleted neither. */
  lemma DeletedIsSolid(k: NamespacedName, w: World, objs: seq<Object>, live: LiveObjects, undisturbed: bool)
    requires Shape(w.cell) && Finalizing(w.cell.pc)
    ensures Solid(k, w.cell.stored, objs, live, undisturbed)
  {
    hide Builds, MetaSet, Ids, AllAsBuilt;
  }

  /** The remaining steps change neither the object, nor the built objects, nor live ones, unless others do. */
  lemma QuietFrame(noCross: bool, k: NamespacedName, w: World, l: Label)
    requires Allowed(k, w, l)
    requires l.Get? || l.GetFailed? || l.SourceIs? || l.Crash? || l.Outside?
    ensures Step(noCross, k, w, l).cell.stored == w.cell.stored && Step(noCross, k, w, l).cell.objs == w.cell.objs
    ensures !l.Outside? ==> Step(noCross, k, w, l).live == w.live
  {
    hide Resolve, OnPatch, OnFinish, OnClient, OnApply, OnDeleteStale, OnDeleteAll;
  }

  lemma StepKeepsSolid(noCross: bool, k: NamespacedName, w: World, l: Label, undisturbed: bool)
    requires Allowed(k, w, l) && Shape(w.cell) && Honest(w.cell) && Tied(w.cell) && Faithful(k, w.cell)
    requires LiveAsBuilt(k, w, undisturbed) && Unready(w.cell) && SolidWorld(k, w, undisturbed)
    ensures SolidWorld(k, Step(noCross, k, w, l), UndisturbedAfter(undisturbed, l))
  {
    var c, d := w.cell, Step(noCross, k, w, l);
    hide OnGet, OnSource, OnPatch, OnClient, OnApply, OnDeleteStale, OnWait, OnFinish, OnUser, OnDeleteAll;
    hide OnImpersonation, OnFinalClient, Reports, Owned, Shape, Honest, Tied, Faithful, LiveAsBuilt, Unready, Solid;
    if l.Patch? {
      PatchStep(noCross, k, w, l.patch);
      if c.pc == Finish {
        FinishKeepsSolid(k, w, l.patch, undisturbed);
      } else {
        PatchKeepsSolid(k, w, l.patch, undisturbed);
      }
    } else if UserLabel(l) {
      UserKeepsSolid(k, w, l, undisturbed);
    } else if l.Get? || l.GetFailed? || l.SourceIs? || l.Crash? || l.Outside? {
      QuietFrame(noCross, k, w, l);
      SolidWithout(k, c.stored, c.objs, w.live, d.live, undisturbed, UndisturbedAfter(undisturbed, l));
    } else {
      OtherKeepsStored(noCross, k, w, l);
      if WorkLabel(c.pc, l) {
        WorkIsInside(k, w, l);
        UnreadyIsSolid(k, w, d.cell.objs, d.live, UndisturbedAfter(undisturbed, l));
      } else {
        DeletedIsSolid(k, w, d.cell.objs, d.live, UndisturbedAfter(undisturbed, l));
      }
    }
  }

  lemma SolidWithout(
      k: NamespacedName, stored: Option<LanguageModel>, objs: seq<Object>,
      live: LiveObjects, live': LiveObjects, undisturbed: bool, undisturbed': bool)
    requires Solid(k, stored, objs, live, undisturbed)
    requires undisturbed' ==> undisturbed && live' == live
    ensures Solid(k, stored, objs, live', undisturbed')
  {
    hide Builds, MetaSet, Ids, AllAsBuilt;
  }

  lemma UndisturbedSnoc(ls: seq<Label>, l: Label)
    ensures Undisturbed(ls + [l]) == UndisturbedAfter(Undisturbed(ls), l)
  {
    assert (ls + [l])[..|ls|] == ls;
  }

  lemma {:induction false} RunIsSolid(noCross: bool, k: NamespacedName, ws: seq<World>, ls: seq<Label>)
    requires IsRunFromStart(noCross, k, ws, ls)
    ensures Unready(ws[|ls|].cell) && SolidWorld(k, ws[|ls|], Undisturbed(ls))
    decreases |ls|
  {
    hide Step, Allowed, Good, Owned;
    if ls != [] {
      hide Initial, Tied, Shape, Honest, Faithful, LiveAsBuilt, Unready, SolidWorld, Undisturbed;
      var n := |ls| - 1;
      var ws', ls' := ws[..n + 1], ls[..n];
      RunInit(noCross, k, ws, ls);
      RunIsSolid(noCross, k, ws', ls');
      ReachableIsGood(noCross, k, ws', ls');
      GoodFacts(k, ws[n]);
      RunIsTied(noCross, k, ws', ls');
      RunIsFaithful(noCross, k, ws', ls');
      RunKeepsLive(noCross, k, ws', ls');
      StepKeepsUnready(noCross, k, ws[n], ls[n]);
      StepKeepsSolid(noCross, k, ws[n], ls[n], Undisturbed(ls'));
      UndisturbedSnoc(ls', ls[n]);
      assert ls' + [ls[n]] == ls;
    }
  }

  // ---------- what may be concluded ----------

  /**
   In every reachable state: an object that is Ready for its current generation,
   and neither suspended nor being deleted, has recorded exactly the objects
   that were last built, and its current spec builds exactly these, contents
   included, from an artifact of the last applied revision. Unless somebody
   interfered since the last apply, its spec is running.
   */
  lemma ReadyNowRunsItsSpec(noCross: bool, k: NamespacedName, ws: seq<World>, ls: seq<Label>)
    requires IsRunFromStart(noCross, k, ws, ls)
    requires ws[|ls|].cell.stored.Some?
    requires ReadyNow(ws[|ls|].cell.stored.value) && !Skips(ws[|ls|].cell.stored.value)
    ensures
      var e := ws[|ls|];
      var lm := e.cell.stored.value;
      && Builds(k, lm, e.cell.objs)
      && Recorded(lm) == Ids(e.cell.objs)
      && (Undisturbed(ls) ==> RunsItsSpec(k, lm, e.live))
  {
    RunIsSolid(noCross, k, ws, ls);
    hide Builds, Recorded, Ids, AllAsBuilt, Undisturbed, IsRunFromStart;
  }

  // ---------- what may not ----------

  /** From no artifact does this spec build exactly these identities. */
  ghost predicate NeverBuilds(k: NamespacedName, spec: Spec, ids: set<ObjMetadata>) {
    forall a: Artifact :: Build(k, spec, a).Success? ==> Ids(Build(k, spec, a).value) != ids
  }

  /** A change between a Deployment and a Knative Service changes what is built, whatever the artifact. */
  lemma OtherDeploymentNeverBuilds(k: NamespacedName, before: Spec, after: Spec, a: Artifact)
    requires Build(k, before, a).Success?
    requires (before.engine.deploymentType == "KnativeService") != (after.engine.deploymentType == "KnativeService")
    ensures NeverBuilds(k, after, Ids(Build(k, before, a).value))
  {
    hide Build, Ids;
    BuildIdentities(k, before, a);
    forall b: Artifact | Build(k, after, b).Success?
      ensures Ids(Build(k, after, b).value) != Ids(Build(k, before, a).value)
    {
      BuildIdentities(k, after, b);
      assert |"Deployment"| == 10 && |"Service"| == 7;
      assert DeploymentId(k) != KnativeServiceId(k);
      assert DeploymentId(k) in {DeploymentId(k), ServiceId(k)};
      assert DeploymentId(k) !in {KnativeServiceId(k)};
    }
  }

  /** So a spec that never builds what is recorded is not running. */
  lemma RunningIsBuilt(k: NamespacedName, lm: LanguageModel, live: LiveObjects)
    requires RunsItsSpec(k, lm, live)
    ensures !NeverBuilds(k, lm.spec, Recorded(lm))
  {
    hide AllAsBuilt, Recorded, Ids;
    var objs :| Builds(k, lm, objs) && Recorded(lm) == Ids(objs) && AllAsBuilt(k, live, objs);
    var a :| BuiltFrom(k, lm, objs, a);
  }

  /** A recorded object that does not opt out of being applied shows the engine of a spec that is running. */
  lemma RunningEngine(k: NamespacedName, lm: LanguageModel, live: LiveObjects, m: ObjMetadata)
    requires RunsItsSpec(k, lm, live) && m in Recorded(lm)
    ensures m in live && (live[m].SkipsApply() || live[m].manifest.engine == lm.spec.engine)
  {
    hide MetaSet, AllParse;
    var objs :| Builds(k, lm, objs) && Recorded(lm) == Ids(objs) && AllAsBuilt(k, live, objs);
    var a :| BuiltFrom(k, lm, objs, a);
    BuiltEngine(k, lm.spec, a);
    hide Build;
    assert m in Ids(objs);
    var o: Object :| o in objs && o.meta == m;
    assert AsBuilt(k, live, o);
  }

  /**
   A spec with another engine, an image or resources for instance, is not
   running where the one before is, unless every object opts out of being
   applied.
   */
  lemma OtherEngineNotRunning(k: NamespacedName, lm: LanguageModel, live: LiveObjects, spec: Spec, m: ObjMetadata)
    requires RunsItsSpec(k, lm, live) && spec.engine != lm.spec.engine
    requires m in Recorded(lm) && m in live && !live[m].SkipsApply()
    ensures !RunsItsSpec(k, lm.(spec := spec), live)
  {
    RunningEngine(k, lm, live, m);
    assert Recorded(lm.(spec := spec)) == Recorded(lm);
    if RunsItsSpec(k, lm.(spec := spec), live) {
      RunningEngine(k, lm.(spec := spec), live, m);
    }
    hide RunsItsSpec, Recorded;
  }

  /** Whether a spec is running depends on the object's spec, inventory and last applied revision alone. */
  lemma RunsAlike(k: NamespacedName, lm: LanguageModel, other: LanguageModel, live: LiveObjects)
    requires other.spec == lm.spec && other.status.lastApplied == lm.status.lastApplied
    requires other.status.inventory == lm.status.inventory
    ensures RunsItsSpec(k, lm, live) ==> RunsItsSpec(k, other, live)
  {
    hide AllAsBuilt, Ids, MetaSet, Builds;
    if RunsItsSpec(k, lm, live) {
      var objs :| Builds(k, lm, objs) && Recorded(lm) == Ids(objs) && AllAsBuilt(k, live, objs);
      SameSpecBuilds(k, lm, other, objs);
    }
  }

  /**
   Between these two states the object is edited, the next call reports it as
   observed and still Ready, and nothing of the edit has reached inventory or
   cluster: the new spec is running if and only if it was before the edit.
   */
  ghost predicate ObservedUnapplied(k: NamespacedName, before: World, after: World, spec: Spec) {
    && before.cell.stored.Some? && after.cell.stored.Some? && after.cell.pc == Idle
    && var lm, lm' := before.cell.stored.value, after.cell.stored.value;
    && lm'.spec == spec && lm'.generation == lm.generation + 1 && ReadyNow(lm')
    && lm'.status.inventory == lm.status.inventory && lm'.status.lastApplied == lm.status.lastApplied
    && after.live == before.live
    && (RunsItsSpec(k, lm', after.live) <==> RunsItsSpec(k, lm.(spec := spec), before.live))
  }

  /** Of a suspended object nothing may be concluded: every edit that suspends a Ready object is observed unapplied. */
  lemma SuspendedEditIsObserved(noCross: bool, k: NamespacedName, w: World, spec: Spec)
    requires w.cell.pc == Idle && w.cell.stored.Some? && w.cell.stored.value.finalizer && !w.cell.stored.value.deleting
    requires IsReady(w.cell.stored.value.status) && spec.suspend
    ensures
      var w1 := Step(noCross, k, w, Edited(spec));
      var w2 := Step(noCross, k, w1, Get);
      var w3 := Step(noCross, k, w2, Patch(Patched));
      && Allowed(k, w, Edited(spec)) && Allowed(k, w1, Get) && Allowed(k, w2, Patch(Patched))
      && ObservedUnapplied(k, w, w3, spec)
  {
    hide Resolve, Owned, MetaSet, OnPatch, OnSource, OnClient, OnApply, OnDeleteStale, OnDeleteAll, OnWait;
    hide OnImpersonation, RunsItsSpec;
    var w3 := Step(noCross, k, Step(noCross, k, Step(noCross, k, w, Edited(spec)), Get), Patch(Patched));
    RunsAlike(k, w.cell.stored.value.(spec := spec), w3.cell.stored.value, w.live);
    RunsAlike(k, w3.cell.stored.value, w.cell.stored.value.(spec := spec), w.live);
  }

  /**
   Nor of an object that is being deleted: every edit of a Ready one that keeps
   pruning on is observed unapplied when the client cannot be had.
   */
  lemma DeletingEditIsObserved(noCross: bool, k: NamespacedName, w: World, spec: Spec)
    requires w.cell.pc == Idle && w.cell.stored.Some? && w.cell.stored.value.finalizer && w.cell.stored.value.deleting
    requires IsReady(w.cell.stored.value.status) && w.cell.stored.value.status.inventory.Some?
    requires spec.prune && !spec.suspend
    ensures
      var w1 := Step(noCross, k, w, Edited(spec));
      var w2 := Step(noCross, k, w1, Get);
      var w3 := Step(noCross, k, w2, Impersonation(true));
      var w4 := Step(noCross, k, w3, Client(false));
      var w5 := Step(noCross, k, w4, Patch(Patched));
      && Allowed(k, w, Edited(spec)) && Allowed(k, w1, Get) && Allowed(k, w2, Impersonation(true))
      && Allowed(k, w3, Client(false)) && Allowed(k, w4, Patch(Patched))
      && ObservedUnapplied(k, w, w5, spec)
  {
    hide Resolve, Owned, MetaSet, OnPatch, OnSource, OnClient, OnApply, OnDeleteStale, OnDeleteAll, OnWait;
    hide RunsItsSpec;
    var w3 := Step(noCross, k, Step(noCross, k, Step(noCross, k, w, Edited(spec)), Get), Impersonation(true));
    var w5 := Step(noCross, k, Step(noCross, k, w3, Client(false)), Patch(Patched));
    RunsAlike(k, w.cell.stored.value.(spec := spec), w5.cell.stored.value, w.live);
    RunsAlike(k, w5.cell.stored.value, w.cell.stored.value.(spec := spec), w.live);
  }
}
