/**
 The last applied revision against an observer that sees only the labels of a
 run: which calls were made and how they were answered.
 */
module History {
  import opened ObjectIds
  import opened ChangeSets
  import opened Inventory
  import opened Api
  import opened Sources
  import opened Manifests
  import opened Cluster
  import opened Machine
  import opened Invariants
  import opened Safety

  /**
   How far the Reconcile call under observation has come: the two patches after
   the health check are left, or one, or it failed.
   */
  datatype Progress = Working | Checked | AllDone | Failed

  datatype Observer = Observer(progress: Progress, revision: string, last: string)

  /**
   `last` becomes the artifact's revision when a call's final patch is persisted
   after every external call of its reconciliation succeeded, the health check
   included. A newly created object starts with none.
   */
  function Observe(o: Observer, l: Label): Observer {
    match l
    case Get => o.(progress := Working)
    case SourceIs(_, _, HasArtifact(a)) => o.(revision := a.revision)
    case SourceIs(_, _, _) => o.(progress := Failed)
    case Client(ok) => if ok then o else o.(progress := Failed)
    case Apply(ApplyFailed(_)) => o.(progress := Failed)
    case Delete(DeleteFailed(_)) => o.(progress := Failed)
    case Wait(_, ok) => o.(progress := if ok then Checked else Failed)
    case Patch(r) =>
      if o.progress == AllDone then
        (if Persists(r) then o.(last := o.revision) else o)
      else if r != Patched then o.(progress := Failed)
      else if o.progress == Checked then o.(progress := AllDone)
      else o
    case Crash => o.(progress := Failed)
    case Created(_) => o.(last := "")
    case _ => o
  }

  function ObserveAll(ls: seq<Label>): Observer {
    if ls == [] then Observer(Working, "", "")
    else Observe(ObserveAll(ls[..|ls| - 1]), ls[|ls| - 1])
  }

  predicate Agrees(o: Observer, c: Cell) {
    && (c.stored.Some? ==> c.stored.value.status.lastApplied == o.last)
    && (c.pc == GetSource ==> o.progress == Working && c.mem.status.lastApplied == o.last)
    && (Finalizing(c.pc) ==> o.progress != AllDone && o.progress != Checked && c.mem.status.lastApplied == o.last)
    && (Reconciling(c.pc) ==>
          && o.progress == (if c.pc == PatchHealthy then Checked else Working)
          && c.artifact.revision == o.revision
          && c.mem.status.lastApplied == o.last)
    && (c.pc == DeleteStale || c.pc == PatchChecking || c.pc == WaitHealthy || c.pc == PatchHealthy ==>
          Entries(c.mem.status) != [])
    && (c.pc == Finish && Present(c) ==>
          c.mem.status.lastApplied == if o.progress == AllDone then o.revision else o.last)
    && (c.pc == Finish ==> o.progress != Checked)
    && (c.pc == Finish && !Present(c) ==> o.progress != AllDone)
  }

  lemma GetAgrees(noCross: bool, k: NamespacedName, w: World, o: Observer)
    requires w.cell.pc == Idle && Shape(w.cell) && Agrees(o, w.cell)
    ensures w.cell.stored.Some? ==> Agrees(Observe(o, Get), OnGet(noCross, k, w.cell))
  {
    hide Resolve, Owned;
  }

  lemma PatchAgrees(c: Cell, o: Observer, r: PatchReply)
    requires IsPatch(c.pc) && Shape(c) && Agrees(o, c)
    requires Persists(r) ==> c.stored.Some?
    ensures Agrees(Observe(o, Patch(r)), if c.pc == Finish then OnFinish(c, r) else OnPatch(c, r))
  {
    hide OnFinish, OnPatch, Agrees, Shape, Observe;
    if c.pc == Finish {
      FinishAgrees(c, o, r);
    } else if r == Patched {
      PatchedAgrees(c, o);
    } else {
      NotPatchedAgrees(c, o, r);
    }
  }

  lemma PatchedAgrees(c: Cell, o: Observer)
    requires IsPatch(c.pc) && c.pc != Finish && Shape(c) && Agrees(o, c) && c.stored.Some?
    ensures Agrees(Observe(o, Patch(Patched)), OnPatch(c, Patched))
  {
    hide MetaSet, StoredShape;
  }

  lemma NotPatchedAgrees(c: Cell, o: Observer, r: PatchReply)
    requires IsPatch(c.pc) && c.pc != Finish && Shape(c) && Agrees(o, c) && r != Patched
    requires Persists(r) ==> c.stored.Some?
    ensures Agrees(Observe(o, Patch(r)), OnPatch(c, r))
  {
    hide MetaSet;
  }

  lemma FinishAgrees(c: Cell, o: Observer, r: PatchReply)
    requires c.pc == Finish && Shape(c) && Agrees(o, c)
    requires Persists(r) ==> c.stored.Some?
    ensures Agrees(Observe(o, Patch(r)), OnFinish(c, r))
  {
    hide MetaSet, FinalizeStatus;
    FinalizeKeepsInventory(c.mem);
    FinalizeKeepsRevisions(c.mem);
  }

  lemma FinalizeKeepsRevisions(lm: LanguageModel)
    ensures FinalizeStatus(lm).status.lastApplied == lm.status.lastApplied
  {
  }

  lemma ApplyAgrees(k: NamespacedName, w: World, o: Observer, entries: seq<ChangeSetEntry>)
    requires ValidName(k) && Allowed(k, w, Apply(Applied(entries)))
    requires Inventoried(k, w.cell) && Agrees(o, w.cell)
    ensures Agrees(Observe(o, Apply(Applied(entries))), OnApply(k, w, Applied(entries)).cell)
  {
    hide Build, AllParse, MetaSet, Refs, Reports, ApplyTo, Desired, Owned, Family, Ids, AfterApply;
    AppliedInventory(k, w, entries);
    AppliedKeepsRevision(w.cell, Refs(entries));
  }

  lemma ApplyFailedAgrees(k: NamespacedName, w: World, o: Observer, part: set<ObjMetadata>)
    requires w.cell.pc == ApplyObjects && Agrees(o, w.cell)
    ensures Agrees(Observe(o, Apply(ApplyFailed(part))), OnApply(k, w, ApplyFailed(part)).cell)
  {
    hide MetaSet, ApplyTo, Desired, Owned, Restrict, AfterApply;
  }

  lemma AppliedKeepsRevision(c: Cell, es: seq<ResourceRef>)
    requires AllParse(Entries(c.mem.status)) && AllParse(es) && es != []
    ensures
      var d := AfterApply(c, es);
      && SameObject(c, d) && d.artifact == c.artifact && Entries(d.mem.status) == es
      && d.mem.status.lastApplied == c.mem.status.lastApplied
      && (d.pc == DeleteStale || d.pc == PatchChecking)
  {
    hide AllParse, MetaSet;
  }

  lemma DeleteAgrees(k: NamespacedName, w: World, o: Observer, r: DeleteReply)
    requires w.cell.pc == DeleteStale && Shape(w.cell) && Agrees(o, w.cell)
    ensures Agrees(Observe(o, Delete(r)), OnDeleteStale(k, w, r).cell)
  {
    hide DeleteFrom, StoredShape;
  }

  lemma FinalizationAgrees(noCross: bool, k: NamespacedName, w: World, o: Observer, l: Label)
    requires Allowed(k, w, l) && Shape(w.cell) && Agrees(o, w.cell) && Finalizing(w.cell.pc)
    requires l.Client? || l.Delete? || l.Impersonation?
    ensures Agrees(Observe(o, l), Step(noCross, k, w, l).cell)
  {
    hide FinalTargets, DeleteFrom, OnGet, OnPatch, OnFinish, OnApply, OnUser, OnDeleteStale, OnClient, StoredShape;
  }

  lemma WorkAgrees(noCross: bool, k: NamespacedName, w: World, o: Observer, l: Label)
    requires Allowed(k, w, l) && Shape(w.cell) && Agrees(o, w.cell) && !Finalizing(w.cell.pc)
    requires l.SourceIs? || l.Client? || l.Wait?
    ensures Agrees(Observe(o, l), Step(noCross, k, w, l).cell)
  {
    hide Build, OnGet, OnPatch, OnFinish, OnApply, OnUser, OnDeleteStale, OnDeleteAll, OnFinalClient, StoredShape;
    hide MetaSet, Reports, Owned;
  }

  lemma UserAgrees(c: Cell, o: Observer, l: Label)
    requires Shape(c) && Agrees(o, c)
    requires UserLabel(l) && (l.Created? ==> c.stored.None?)
    ensures Agrees(Observe(o, l), c.(stored := OnUser(c.stored, l)))
  {
  }

  lemma QuietAgrees(noCross: bool, k: NamespacedName, w: World, o: Observer, l: Label)
    requires Allowed(k, w, l) && Agrees(o, w.cell)
    requires l.Crash? || l.Outside? || l.GetFailed?
    ensures Agrees(Observe(o, l), Step(noCross, k, w, l).cell)
  {
    hide OnGet, OnSource, OnPatch, OnClient, OnApply, OnDeleteStale, OnWait, OnFinish, OnUser;
  }

  lemma StepAgrees(noCross: bool, k: NamespacedName, w: World, o: Observer, l: Label)
    requires ValidName(k) && Allowed(k, w, l)
    requires Shape(w.cell) && Inventoried(k, w.cell) && Agrees(o, w.cell)
    ensures Agrees(Observe(o, l), Step(noCross, k, w, l).cell)
  {
    hide OnGet, OnSource, OnPatch, OnClient, OnApply, OnDeleteStale, OnWait, OnFinish, OnUser;
    hide OnImpersonation, OnFinalClient, OnDeleteAll, Reports, Owned, Shape, Inventoried, Agrees;
    var c := w.cell;
    if l.Crash? || l.Outside? || l.GetFailed? {
      QuietAgrees(noCross, k, w, o, l);
    } else if l.Apply? {
      if l.apply.Applied? {
        ApplyAgrees(k, w, o, l.apply.entries);
      } else {
        ApplyFailedAgrees(k, w, o, l.apply.part);
      }
    } else if Finalizing(c.pc) && (l.Client? || l.Delete? || l.Impersonation?) {
      FinalizationAgrees(noCross, k, w, o, l);
    } else if l.Delete? {
      DeleteAgrees(k, w, o, l.delete);
    } else if l.SourceIs? || l.Client? || l.Wait? {
      WorkAgrees(noCross, k, w, o, l);
    } else if UserLabel(l) {
      UserAgrees(c, o, l);
    } else if l.Patch? {
      PatchAgrees(c, o, l.patch);
    } else if l.Get? {
      if c.stored.Some? {
        GetAgrees(noCross, k, w, o);
      } else {
        NothingToGet(noCross, k, w);
        NothingAgrees(o, w.cell);
      }
    }
  }

  lemma NothingAgrees(o: Observer, c: Cell)
    requires c.pc == Idle && c.stored.None?
    ensures Agrees(Observe(o, Get), c.(outcome := NoRequeue))
  {
  }

  lemma InitialAgrees(k: NamespacedName, w: World)
    requires Initial(k, w)
    ensures Agrees(ObserveAll([]), w.cell)
  {
  }

  lemma {:induction false} RunAgrees(noCross: bool, k: NamespacedName, ws: seq<World>, ls: seq<Label>)
    requires IsRunFromStart(noCross, k, ws, ls)
    ensures Agrees(ObserveAll(ls), ws[|ls|].cell)
    decreases |ls|
  {
    hide Step, Allowed, Observe, Agrees, Initial, Owned;
    if ls == [] {
      InitialAgrees(k, ws[0]);
    } else {
      var n := |ls| - 1;
      RunInit(noCross, k, ws, ls);
      RunAgrees(noCross, k, ws[..n + 1], ls[..n]);
      ReachableIsGood(noCross, k, ws[..n + 1], ls[..n]);
      StepAgrees(noCross, k, ws[n], ObserveAll(ls[..n]), ls[n]);
    }
  }

  /**
   In every reachable state the recorded last applied revision is the revision
   of the last Reconcile call that was persisted after succeeding throughout.
   */
  lemma LastAppliedIsHistory(noCross: bool, k: NamespacedName, ws: seq<World>, ls: seq<Label>)
    requires IsRunFromStart(noCross, k, ws, ls)
    requires ws[|ls|].cell.stored.Some?
    ensures ws[|ls|].cell.stored.value.status.lastApplied == ObserveAll(ls).last
  {
    hide Step, Allowed, Observe, Initial, Owned;
    RunAgrees(noCross, k, ws, ls);
  }
}
