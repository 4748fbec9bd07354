/**
 What `observedGeneration` tells about a Ready object. The final patch of every
 Reconcile call that finds Ready true records the generation it read, whether
 or not that call applied anything.
 */
module Observation {
  import opened Wrappers
  import opened Inventory
  import opened Api
  import opened Sources
  import opened Manifests
  import opened Cluster
  import opened Machine
  import opened Invariants
  import opened Safety

  /** This run has applied and recorded exactly what the spec it read asks for. */
  predicate AppliedItsSpec(k: NamespacedName, c: Cell) {
    && Build(k, c.mem.spec, c.artifact) == Success(c.objs)
    && Recorded(c.mem) == Ids(c.objs)
  }

  predicate PastApply(pc: Pc) {
    pc == DeleteStale || pc == PatchChecking || pc == WaitHealthy || pc == PatchHealthy
  }

  predicate Skips(lm: LanguageModel) {
    lm.spec.suspend || lm.deleting
  }

  predicate Faithful(k: NamespacedName, c: Cell) {
    && (c.pc == GetSource || Reconciling(c.pc) ==> !Skips(c.mem))
    && (PastApply(c.pc) ==> AppliedItsSpec(k, c) && Entries(c.mem.status) != [])
    && (c.pc == Finish && IsReady(c.mem.status) ==>
          if c.outcome == NextInterval then
            !Skips(c.mem) && AppliedItsSpec(k, c) && c.mem.status.lastApplied == c.artifact.revision
          else Skips(c.mem))
  }

  lemma GetIsFaithful(noCross: bool, k: NamespacedName, w: World)
    requires w.cell.pc == Idle && Shape(w.cell) && w.cell.stored.Some?
    ensures Faithful(k, OnGet(noCross, k, w.cell))
  {
    hide Resolve, Owned, Build, MetaSet, Ids;
  }

  lemma FinishIsFaithful(k: NamespacedName, c: Cell, r: PatchReply)
    requires c.pc == Finish
    ensures Faithful(k, OnFinish(c, r))
  {
    hide Build, MetaSet, Ids, FinalizeStatus;
  }

  lemma FailedPatchIsFaithful(k: NamespacedName, c: Cell, r: PatchReply)
    requires IsPatch(c.pc) && c.pc != Finish && r != Patched && Honest(c)
    ensures Faithful(k, OnPatch(c, r))
  {
    hide AppliedItsSpec, Skips, HonestStatus;
  }

  lemma PatchIsFaithful(k: NamespacedName, c: Cell)
    requires IsPatch(c.pc) && c.pc != Finish && Faithful(k, c)
    ensures Faithful(k, OnPatch(c, Patched))
  {
    hide Build, MetaSet, Ids;
  }

  lemma ApplyIsFaithful(k: NamespacedName, w: World, r: ApplyReply)
    requires ValidName(k) && Allowed(k, w, Apply(r))
    requires Honest(w.cell) && Inventoried(k, w.cell) && Faithful(k, w.cell)
    ensures Faithful(k, OnApply(k, w, r).cell)
  {
    hide Build, AllParse, MetaSet, Refs, Reports, ApplyTo, Desired, Owned, Family, Ids, AfterApply, Restrict;
    if r.Applied? {
      AppliedInventory(k, w, r.entries);
      AfterApplyInventory(w.cell, Refs(r.entries));
      AfterApplyFacts(w.cell, Refs(r.entries));
    }
  }

  lemma DeleteIsFaithful(k: NamespacedName, w: World, r: DeleteReply)
    requires w.cell.pc == DeleteStale && Honest(w.cell) && Faithful(k, w.cell)
    ensures Faithful(k, OnDeleteStale(k, w, r).cell)
  {
    hide Build, MetaSet, Ids, DeleteFrom;
  }

  lemma FinalizationIsFaithful(noCross: bool, k: NamespacedName, w: World, l: Label)
    requires Allowed(k, w, l) && Shape(w.cell) && Finalizing(w.cell.pc)
    requires l.Client? || l.Delete? || l.Impersonation?
    ensures Faithful(k, Step(noCross, k, w, l).cell)
  {
    hide Build, MetaSet, Ids, DeleteFrom, FinalTargets, OnGet, OnPatch, OnFinish, OnApply, OnUser, OnDeleteStale;
    hide OnClient;
  }

  lemma WorkIsFaithful(noCross: bool, k: NamespacedName, w: World, l: Label)
    requires Allowed(k, w, l) && Honest(w.cell) && Faithful(k, w.cell) && !Finalizing(w.cell.pc)
    requires l.SourceIs? || l.Client? || l.Wait?
    ensures Faithful(k, Step(noCross, k, w, l).cell)
  {
    hide Build, MetaSet, Ids, OnGet, OnPatch, OnFinish, OnApply, OnUser, OnDeleteStale, OnDeleteAll, OnFinalClient;
  }

  lemma StepIsFaithful(noCross: bool, k: NamespacedName, w: World, l: Label)
    requires ValidName(k) && Allowed(k, w, l) && Good(k, w) && Faithful(k, w.cell)
    ensures Faithful(k, Step(noCross, k, w, l).cell)
  {
    hide OnGet, OnSource, OnPatch, OnClient, OnApply, OnDeleteStale, OnWait, OnFinish, OnUser;
    hide OnImpersonation, OnFinalClient, OnDeleteAll, Reports, Owned, Shape, Honest, Inventoried, Build, MetaSet, Ids;
    if l.Apply? {
      ApplyIsFaithful(k, w, l.apply);
    } else if l.Patch? {
      if w.cell.pc == Finish {
        FinishIsFaithful(k, w.cell, l.patch);
      } else if l.patch == Patched {
        PatchIsFaithful(k, w.cell);
      } else {
        FailedPatchIsFaithful(k, w.cell, l.patch);
      }
    } else if Finalizing(w.cell.pc) && (l.Client? || l.Delete? || l.Impersonation?) {
      FinalizationIsFaithful(noCross, k, w, l);
    } else if l.Delete? {
      DeleteIsFaithful(k, w, l.delete);
    } else if l.SourceIs? || l.Client? || l.Wait? {
      WorkIsFaithful(noCross, k, w, l);
    } else if l.Get? {
      if w.cell.stored.Some? {
        GetIsFaithful(noCross, k, w);
      } else {
        NothingToGet(noCross, k, w);
      }
    }
  }

  lemma {:induction false} RunIsFaithful(noCross: bool, k: NamespacedName, ws: seq<World>, ls: seq<Label>)
    requires IsRunFromStart(noCross, k, ws, ls)
    ensures Faithful(k, ws[|ls|].cell)
    decreases |ls|
  {
    hide Step, Allowed, Good, Owned, Build, MetaSet;
    if ls != [] {
      hide Faithful, Initial;
      var n := |ls| - 1;
      RunInit(noCross, k, ws, ls);
      RunIsFaithful(noCross, k, ws[..n + 1], ls[..n]);
      ReachableIsGood(noCross, k, ws[..n + 1], ls[..n]);
      StepIsFaithful(noCross, k, ws[n], ls[n]);
    }
  }

  /**
   A call about to report Ready schedules the next interval if and only if the
   object it read was neither suspended nor being deleted; and then it has
   applied and recorded the spec it read, at the revision it reports.
   */
  lemma ReadyMeansApplied(noCross: bool, k: NamespacedName, ws: seq<World>, ls: seq<Label>)
    requires IsRunFromStart(noCross, k, ws, ls)
    requires ws[|ls|].cell.pc == Finish && IsReady(ws[|ls|].cell.mem.status)
    ensures
      var c := ws[|ls|].cell;
      && (c.outcome == NextInterval <==> !c.mem.spec.suspend && !c.mem.deleting)
      && (!c.mem.spec.suspend && !c.mem.deleting ==>
            && Build(k, c.mem.spec, c.artifact) == Success(c.objs)
            && Recorded(c.mem) == Ids(c.objs)
            && c.mem.status.lastApplied == c.artifact.revision)
  {
    hide Build, Ids, Recorded;
    RunIsFaithful(noCross, k, ws, ls);
  }

  // ---------- the copy and the persisted object ----------

  /** Equal generations mean equal specs, and a deletion that was read still stands. */
  predicate Tied(c: Cell) {
    c.pc != Idle ==>
      && (c.mem.deleting ==> c.stored.Some? && c.stored.value.deleting)
      && (Present(c) && c.mem.generation == c.stored.value.generation ==> c.mem.spec == c.stored.value.spec)
  }

  lemma GetIsTied(noCross: bool, k: NamespacedName, c: Cell)
    requires c.pc == Idle && c.stored.Some?
    ensures Tied(OnGet(noCross, k, c))
  {
    hide Resolve;
  }

  lemma PatchKeepsTied(c: Cell, r: PatchReply)
    requires IsPatch(c.pc) && Shape(c) && Tied(c)
    ensures Tied(if c.pc == Finish then OnFinish(c, r) else OnPatch(c, r))
  {
    FinalizeKeepsObject(c.mem);
    if c.pc == Finish {
      hide FinalizeStatus, OnPatch;
    } else {
      hide OnFinish;
    }
  }

  lemma FinalizeKeepsObject(lm: LanguageModel)
    ensures FinalizeStatus(lm) == lm.(status := FinalizeStatus(lm).status)
  {
  }

  lemma FinalizationKeepsTied(k: NamespacedName, w: World, l: Label)
    requires Finalizing(w.cell.pc) && Tied(w.cell)
    ensures Tied(OnImpersonation(w.cell, false)) && Tied(OnImpersonation(w.cell, true))
    ensures Tied(OnFinalClient(w.cell, false)) && Tied(OnFinalClient(w.cell, true))
    ensures l.Delete? ==> Tied(OnDeleteAll(k, w, l.delete).cell)
  {
    hide FinalTargets, DeleteFrom;
  }

  lemma UserKeepsTied(c: Cell, l: Label)
    requires Shape(c) && Tied(c) && UserLabel(l)
    ensures Tied(c.(stored := OnUser(c.stored, l)))
  {
  }

  lemma StepKeepsTied(noCross: bool, k: NamespacedName, w: World, l: Label)
    requires Allowed(k, w, l) && Shape(w.cell) && Tied(w.cell)
    ensures Tied(Step(noCross, k, w, l).cell)
  {
    hide OnGet, OnSource, OnPatch, OnClient, OnApply, OnDeleteStale, OnWait, OnFinish, OnUser;
    hide OnImpersonation, OnFinalClient, OnDeleteAll, Reports, Owned, Shape;
    var c := w.cell;
    if WorkLabel(c.pc, l) {
      WorkFrame(noCross, k, w, l);
    } else if l.Impersonation? || l.Client? || l.Delete? {
      FinalizationKeepsTied(k, w, l);
    } else if UserLabel(l) {
      UserKeepsTied(c, l);
    } else if l.Patch? {
      PatchKeepsTied(c, l.patch);
    } else if l.Get? {
      if c.stored.Some? {
        GetIsTied(noCross, k, c);
      } else {
        NothingToGet(noCross, k, w);
      }
    }
  }

  lemma FinalizeKeepsReady(lm: LanguageModel)
    ensures IsReady(FinalizeStatus(lm).status) <==> IsReady(lm.status)
    ensures IsReady(lm.status) ==> FinalizeStatus(lm).status.observedGeneration == lm.generation
    ensures FinalizeStatus(lm).status.lastApplied == lm.status.lastApplied
    ensures FinalizeStatus(lm).status.inventory == lm.status.inventory
    ensures FinalizeStatus(lm).spec == lm.spec && FinalizeStatus(lm).finalizer == lm.finalizer
  {
  }

  lemma GoodFacts(k: NamespacedName, w: World)
    requires Good(k, w)
    ensures Shape(w.cell) && Honest(w.cell)
  {
  }

  lemma {:induction false} RunIsTied(noCross: bool, k: NamespacedName, ws: seq<World>, ls: seq<Label>)
    requires IsRunFromStart(noCross, k, ws, ls)
    ensures Tied(ws[|ls|].cell)
    decreases |ls|
  {
    hide Step, Allowed, Good, Owned;
    if ls != [] {
      hide Initial, Tied, Shape, Honest;
      var n := |ls| - 1;
      RunInit(noCross, k, ws, ls);
      RunIsTied(noCross, k, ws[..n + 1], ls[..n]);
      ReachableIsGood(noCross, k, ws[..n + 1], ls[..n]);
      GoodFacts(k, ws[n]);
      StepKeepsTied(noCross, k, ws[n], ls[n]);
    }
  }
}
