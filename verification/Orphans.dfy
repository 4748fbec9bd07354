/**
 Orphans: live objects that carry the owner labels of a LanguageModel and that
 nothing records. Which steps make them, exactly, and which runs have none.
 */
module Orphans {
  import opened ObjectIds
  import opened ChangeSets
  import opened Inventory
  import opened Api
  import opened Sources
  import opened Manifests
  import opened Cluster
  import opened Machine
  import opened Invariants
  import opened Safety

  /**
   What is kept track of: between two calls, the persisted inventory; during a
   call, the inventory of the copy, and while pruning also what was found stale.
   A call that is about to remove the finalizer has given everything up.
   */
  function Tracked(c: Cell): set<ObjMetadata> {
    if c.pc == Idle then RecordedIn(c.stored)
    else if c.pc == Finish && !c.mem.finalizer then {}
    else if c.pc == DeleteStale then Recorded(c.mem) + c.stale
    else Recorded(c.mem)
  }

  function Orphaned(k: NamespacedName, w: World): set<ObjMetadata> {
    Owned(k, w.live) - Tracked(w.cell)
  }

  // ---------- the events ----------

  /** What a run keeps track of and the API server does not know. */
  function Unsaved(c: Cell): set<ObjMetadata> {
    Tracked(c) - RecordedIn(c.stored)
  }

  /**
   Until a call reaches its end, anything is unsaved only between a successful
   apply and the next patch: what was built and the persisted inventory lacks.
   */
  lemma UnsavedExactly(k: NamespacedName, c: Cell)
    requires Inventoried(k, c)
    ensures c.pc != DeleteStale && c.pc != PatchChecking && c.pc != Finish ==> Unsaved(c) == {}
    ensures c.pc == DeleteStale || c.pc == PatchChecking ==> Unsaved(c) == Ids(c.objs) - RecordedIn(c.stored)
  {
    hide MetaSet, AllParse, Family, Build, Ids;
  }

  /** That patch, once persisted, saves everything. */
  lemma PatchSaves(c: Cell)
    requires c.pc == PatchChecking && c.stored.Some? && c.mem.finalizer
    ensures Unsaved(OnPatch(c, Patched)) == {} && Unsaved(OnPatch(c, PatchedWithError)) == {}
  {
    hide MetaSet;
  }

  /** The object is being deleted, and finalization will not prune. */
  predicate GivesUp(c: Cell) {
    c.stored.Some? && c.stored.value.deleting && (!c.stored.value.spec.prune || c.stored.value.spec.suspend)
  }

  /** What a failing apply put under our ownership although nothing records it. */
  function AppliedUnrecorded(k: NamespacedName, w: World, part: set<ObjMetadata>): set<ObjMetadata> {
    set m | m in part * Ids(w.cell.objs) - Owned(k, w.live) - Recorded(w.cell.mem) && !Skipped(w.live, m)
  }

  /** What a failing deletion left of its targets. */
  function NotDeleted(
      k: NamespacedName, live: LiveObjects, targets: set<ObjMetadata>, part: set<ObjMetadata>): set<ObjMetadata> {
    set m | m in targets * Owned(k, live) && !(m in part && Deletable(k, live[m]))
  }

  /**
   The objects a step abandons: owned ones that a failing apply put there; that
   are stale while pruning is off; that a failing pruning left, or that opted
   out of it; that a crash or a failing final patch forgot; and those of an
   object that is finalized without pruning.
   */
  function Abandoned(k: NamespacedName, w: World, l: Label): set<ObjMetadata> {
    var c := w.cell;
    match l
    case Apply(ApplyFailed(part)) => AppliedUnrecorded(k, w, part)
    case Apply(Applied(_)) => if c.mem.spec.prune then {} else (Recorded(c.mem) - Ids(c.objs)) * Owned(k, w.live)
    case Delete(DeleteFailed(part)) => if c.pc == DeleteStale then NotDeleted(k, w.live, c.stale, part) else {}
    case Delete(DeletedAll) => Kept(k, w.live, if c.pc == DeleteStale then c.stale else Recorded(c.mem))
    case Crash => Unsaved(c) * Owned(k, w.live)
    case Patch(NotPatched) => if c.pc == Finish then Unsaved(c) * Owned(k, w.live) else {}
    case Get => if GivesUp(c) then RecordedIn(c.stored) * Owned(k, w.live) else {}
    case Impersonation(possible) => if possible then {} else Recorded(c.mem) * Owned(k, w.live)
    case _ => {}
  }

  // ---------- one step ----------

  /** The step makes orphans of exactly the objects it abandons. */
  predicate Exact(k: NamespacedName, w: World, l: Label, after: World) {
    Orphaned(k, after) - Orphaned(k, w) == Abandoned(k, w, l)
  }

  lemma ApplyFailedIsExact(k: NamespacedName, w: World, part: set<ObjMetadata>)
    requires w.cell.pc == ApplyObjects && w.cell.mem.finalizer
    ensures Exact(k, w, Apply(ApplyFailed(part)), OnApply(k, w, ApplyFailed(part)))
  {
    hide MetaSet, Desired, Ids, AfterApply;
  }

  lemma ApplyIsExact(k: NamespacedName, w: World, entries: seq<ChangeSetEntry>)
    requires ValidName(k) && Allowed(k, w, Apply(Applied(entries))) && Inventoried(k, w.cell) && w.cell.mem.finalizer
    ensures Exact(k, w, Apply(Applied(entries)), OnApply(k, w, Applied(entries)))
  {
    hide Build, AllParse, MetaSet, Refs, Reports, Desired, Family, Ids, AfterApply, IsReady;
    var c := w.cell;
    AppliedInventory(k, w, entries);
    AfterApplyInventory(c, Refs(entries));
    AfterApplyFacts(c, Refs(entries));
  }

  lemma DeleteStaleIsExact(k: NamespacedName, w: World, r: DeleteReply)
    requires w.cell.pc == DeleteStale && Inventoried(k, w.cell) && w.cell.mem.finalizer
    ensures Exact(k, w, Delete(r), OnDeleteStale(k, w, r))
  {
    hide Build, AllParse, MetaSet, Family, Ids, CheckHealth;
    CheckHealthFacts(w.cell);
  }

  lemma DeleteAllIsExact(k: NamespacedName, w: World, r: DeleteReply)
    requires w.cell.pc == DeleteAll && Inventoried(k, w.cell) && w.cell.mem.finalizer
    ensures Exact(k, w, Delete(r), OnDeleteAll(k, w, r))
  {
    hide Build, AllParse, MetaSet, Family, Ids;
  }

  lemma GetIsExact(noCross: bool, k: NamespacedName, w: World)
    requires w.cell.pc == Idle && Shape(w.cell)
    ensures Exact(k, w, Get, w.(cell := OnGet(noCross, k, w.cell)))
  {
    assert MetaSet([]) == {};
    hide MetaSet, Owned, OnGet;
    if w.cell.stored.Some? {
      GetFacts(noCross, k, w.cell);
    } else {
      NothingToGet(noCross, k, w);
    }
  }

  /** Reading the object records nothing new, and removes the finalizer at once when nothing will be pruned. */
  lemma GetFacts(noCross: bool, k: NamespacedName, c: Cell)
    requires c.pc == Idle && c.stored.Some?
    ensures
      var d := OnGet(noCross, k, c);
      && d.stored == c.stored
      && d.mem.status.inventory == d.stored.value.status.inventory
      && d.pc != Idle && d.pc != DeleteStale
      && (d.pc == Finish && !d.mem.finalizer <==>
            d.stored.value.deleting && (GivesUp(c) || d.stored.value.status.inventory.None?))
  {
    hide Resolve;
  }

  lemma PatchIsExact(k: NamespacedName, w: World, r: PatchReply)
    requires IsPatch(w.cell.pc) && w.cell.pc != Finish && w.cell.mem.finalizer
    ensures Exact(k, w, Patch(r), w.(cell := OnPatch(w.cell, r)))
  {
    hide MetaSet, Owned;
  }

  lemma FinishIsExact(k: NamespacedName, w: World, r: PatchReply)
    requires w.cell.pc == Finish && Shape(w.cell)
    requires Persists(r) ==> w.cell.stored.Some?
    ensures Exact(k, w, Patch(r), w.(cell := OnFinish(w.cell, r)))
  {
    hide MetaSet, Owned, FinalizeStatus;
    FinalizeKeepsInventory(w.cell.mem);
  }

  lemma UserIsExact(k: NamespacedName, w: World, l: Label)
    requires Shape(w.cell) && UserLabel(l)
    requires l.Created? ==> w.cell.stored.None?
    ensures Exact(k, w, l, w.(cell := w.cell.(stored := OnUser(w.cell.stored, l))))
  {
    assert MetaSet([]) == {};
    hide MetaSet, Owned;
  }

  lemma CrashIsExact(k: NamespacedName, w: World)
    ensures Exact(k, w, Crash, w.(cell := w.cell.(pc := Idle)))
  {
    hide MetaSet, Owned;
  }

  /** Looking for the source, getting a client, waiting and impersonating record nothing. */
  lemma OtherIsExact(noCross: bool, k: NamespacedName, w: World, l: Label)
    requires Allowed(k, w, l) && w.cell.mem.finalizer
    requires l.SourceIs? || l.Client? || l.Wait? || l.Impersonation?
    ensures Exact(k, w, l, Step(noCross, k, w, l))
  {
    hide Build, MetaSet, Owned, OnGet, OnPatch, OnFinish, OnApply, OnDeleteAll, OnDeleteStale, OnUser;
  }

  lemma RunsUnderFinalizer(c: Cell)
    requires Shape(c) && c.pc != Idle && c.pc != Finish
    ensures c.mem.finalizer
  {
  }

  /**
   For every step of every reachable state: the objects that become orphans are
   exactly those the step abandons.
   */
  lemma OrphansOfStep(noCross: bool, k: NamespacedName, w: World, l: Label)
    requires ValidName(k) && Allowed(k, w, l) && Good(k, w)
    ensures Orphaned(k, Step(noCross, k, w, l)) - Orphaned(k, w) == Abandoned(k, w, l)
  {
    hide OnGet, OnSource, OnPatch, OnClient, OnApply, OnDeleteStale, OnWait, OnFinish, OnUser;
    hide OnImpersonation, OnFinalClient, OnDeleteAll, Reports, Shape, Inventoried, Honest;
    var c := w.cell;
    if c.pc != Idle && c.pc != Finish {
      RunsUnderFinalizer(c);
    }
    if l.Outside? {
    } else {
      hide Tracked, Abandoned, Owned;
      match l
      case Apply(Applied(entries)) => ApplyIsExact(k, w, entries);
      case Apply(ApplyFailed(part)) => ApplyFailedIsExact(k, w, part);
      case Delete(r) =>
        if c.pc == DeleteStale {
          DeleteStaleIsExact(k, w, r);
        } else {
          DeleteAllIsExact(k, w, r);
        }
      case Get => GetIsExact(noCross, k, w);
      case Patch(r) =>
        if c.pc == Finish {
          FinishIsExact(k, w, r);
        } else {
          PatchIsExact(k, w, r);
        }
      case Crash => CrashIsExact(k, w);
      case GetFailed => FailedGetIsExact(k, w);
      case _ =>
        if UserLabel(l) {
          UserIsExact(k, w, l);
        } else {
          OtherIsExact(noCross, k, w, l);
        }
    }
  }

  lemma FailedGetIsExact(k: NamespacedName, w: World)
    requires w.cell.pc == Idle
    ensures Exact(k, w, GetFailed, w.(cell := w.cell.(outcome := RequeueWithError)))
  {
  }

  // ---------- what an event leaves behind ----------

  /** A persisted final patch neither makes orphans nor adopts any. */
  lemma FinalPatchKeepsOrphans(k: NamespacedName, w: World, r: PatchReply)
    requires w.cell.pc == Finish && Shape(w.cell) && w.cell.stored.Some? && Persists(r)
    ensures OnFinish(w.cell, r).pc == Idle
    ensures Tracked(OnFinish(w.cell, r)) == Tracked(w.cell)
  {
    hide MetaSet, FinalizeStatus;
    FinalizeKeepsInventory(w.cell.mem);
  }

  lemma FailedPatchKeepsOrphans(c: Cell)
    requires c.pc == PatchChecking && c.mem.finalizer
    ensures OnPatch(c, NotPatched).pc == Finish && OnPatch(c, NotPatched).stored == c.stored
    ensures Tracked(OnPatch(c, NotPatched)) == Tracked(c)
  {
    hide MetaSet;
  }

  lemma RunCons(noCross: bool, k: NamespacedName, w: World, l: Label, ws: seq<World>, ls: seq<Label>)
    requires Allowed(k, w, l) && IsRun(noCross, k, ws, ls) && ws[0] == Step(noCross, k, w, l)
    ensures IsRun(noCross, k, [w] + ws, [l] + ls)
  {
    hide Allowed, Step;
    var ws', ls' := [w] + ws, [l] + ls;
    forall i | 0 <= i < |ls'|
      ensures Allowed(k, ws'[i], ls'[i]) && ws'[i + 1] == Step(noCross, k, ws'[i], ls'[i])
    {
      if i > 0 {
        assert ls[i - 1] == ls'[i];
      }
    }
  }

  /** The run can end here, or is about to patch the beginning of its health check. */
  predicate CanEnd(c: Cell) {
    c.pc == Idle || (c.pc == Finish && c.stored.Some?) || (c.pc == PatchChecking && c.stored.Some?)
  }

  lemma FinishEnds(noCross: bool, k: NamespacedName, w: World) returns (ws: seq<World>, ls: seq<Label>)
    requires Shape(w.cell) && w.cell.pc == Finish && w.cell.stored.Some?
    ensures IsRun(noCross, k, ws, ls) && ws[0] == w
    ensures ws[|ls|].cell.pc == Idle && ws[|ls|].live == w.live
    ensures Tracked(ws[|ls|].cell) == Tracked(w.cell)
  {
    var after := w.(cell := OnFinish(w.cell, Patched));
    PatchStep(noCross, k, w, Patched);
    FinalPatchKeepsOrphans(k, w, Patched);
    hide Allowed, Step, OnFinish, Tracked, Shape;
    RunCons(noCross, k, w, Patch(Patched), [after], []);
    ws, ls := [w] + [after], [Patch(Patched)] + [];
  }

  /** From there the call can end with its final patch persisted, and every orphan is still one. */
  lemma CallEnds(noCross: bool, k: NamespacedName, w: World) returns (ws: seq<World>, ls: seq<Label>)
    requires Shape(w.cell) && CanEnd(w.cell)
    ensures IsRun(noCross, k, ws, ls) && ws[0] == w
    ensures ws[|ls|].cell.pc == Idle && ws[|ls|].live == w.live
    ensures Tracked(ws[|ls|].cell) == Tracked(w.cell)
  {
    hide Allowed, Step, OnFinish, OnPatch, Tracked, Shape;
    if w.cell.pc == Idle {
      ws, ls := [w], [];
    } else if w.cell.pc == Finish {
      ws, ls := FinishEnds(noCross, k, w);
    } else {
      var after := w.(cell := OnPatch(w.cell, NotPatched));
      RunsUnderFinalizer(w.cell);
      FailedPatchKeepsOrphans(w.cell);
      PatchStep(noCross, k, w, NotPatched);
      StepKeepsShape(noCross, k, w, Patch(NotPatched));
      hide *;
      var ws', ls' := FinishEnds(noCross, k, after);
      RunCons(noCross, k, w, Patch(NotPatched), ws', ls');
      ws, ls := [w] + ws', [Patch(NotPatched)] + ls';
    }
  }

  lemma AbandoningEnds(noCross: bool, k: NamespacedName, w: World, l: Label)
    requires ValidName(k) && Allowed(k, w, l) && Good(k, w) && Abandoned(k, w, l) != {}
    ensures CanEnd(Step(noCross, k, w, l).cell)
  {
    hide Build, AllParse, MetaSet, Refs, Reports, Family, Ids, AfterApply, DeleteFrom, ApplyTo, Desired, Restrict;
    hide Owned;
    hide CheckHealth, OnPatch, OnClient, OnSource, OnWait, Kept, NotDeleted, AppliedUnrecorded, Unsaved, Resolve;
    hide FinalTargets;
    if l.Apply? && l.apply.Applied? {
      AppliedInventory(k, w, l.apply.entries);
      AfterApplyInventory(w.cell, Refs(l.apply.entries));
    } else if l.Delete? {
      CheckHealthFacts(w.cell);
    }
  }

  /**
   None of the events is harmless: whatever a step abandons in a reachable
   state, the call can end there, with its final patch persisted, and the
   object is then live, still carries the owner labels, and is in no inventory.
   */
  lemma AbandonedIsLeftBehind(noCross: bool, k: NamespacedName, w: World, l: Label, m: ObjMetadata)
    returns (ws: seq<World>, ls: seq<Label>)
    requires ValidName(k) && Allowed(k, w, l) && Good(k, w) && m in Abandoned(k, w, l)
    ensures IsRun(noCross, k, ws, ls) && ls != [] && ws[0] == w && ls[0] == l
    ensures ws[|ls|].cell.pc == Idle
    ensures m in Owned(k, ws[|ls|].live) && m !in RecordedIn(ws[|ls|].cell.stored)
  {
    var after := Step(noCross, k, w, l);
    AbandoningEnds(noCross, k, w, l);
    OrphansOfStep(noCross, k, w, l);
    StepKeepsShapeOf(noCross, k, w, l);
    hide Allowed, Step, IsRun, Shape, Good, Abandoned, Owned;
    var ws', ls' := CallEnds(noCross, k, after);
    RunCons(noCross, k, w, l, ws', ls');
    ws, ls := [w] + ws', [l] + ls';
    assert ws[|ls|] == ws'[|ls'|];
  }

  lemma StepKeepsShapeOf(noCross: bool, k: NamespacedName, w: World, l: Label)
    requires Allowed(k, w, l) && Good(k, w)
    ensures Shape(Step(noCross, k, w, l).cell)
  {
    StepKeepsShape(noCross, k, w, l);
  }

  // ---------- whole runs ----------

  /**
   Every orphan has a cause: some step of the run abandoned it, and it has been
   an orphan ever since. Whatever is recorded again in between is none.
   */
  lemma {:induction false} OrphansHaveACause(
      noCross: bool, k: NamespacedName, ws: seq<World>, ls: seq<Label>, m: ObjMetadata)
    returns (i: nat)
    requires IsRunFromStart(noCross, k, ws, ls)
    requires m in Orphaned(k, ws[|ls|])
    ensures i < |ls| && m in Abandoned(k, ws[i], ls[i])
    ensures forall j | i < j <= |ls| :: m in Orphaned(k, ws[j])
    decreases |ls|
  {
    hide Step, Good, Allowed, Abandoned, Tracked, Owned;
    assert ls != [];
    var n := |ls| - 1;
    RunInit(noCross, k, ws, ls);
    ReachableIsGood(noCross, k, ws[..n + 1], ls[..n]);
    OrphansOfStep(noCross, k, ws[n], ls[n]);
    if m in Orphaned(k, ws[n]) {
      i := OrphansHaveACause(noCross, k, ws[..n + 1], ls[..n], m);
      forall j | i < j <= |ls| ensures m in Orphaned(k, ws[j]) {
        if j <= n {
          assert ws[..n + 1][j] == ws[j];
        }
      }
    } else {
      i := n;
    }
  }

  /** From the i-th step on, the run abandons nothing. */
  ghost predicate CleanFrom(k: NamespacedName, ws: seq<World>, ls: seq<Label>, i: nat)
    requires |ws| == |ls| + 1
  {
    forall j {:trigger ls[j]} :: i <= j < |ls| ==> Abandoned(k, ws[j], ls[j]) == {}
  }

  /** A run without such events makes no orphans, from any moment on. */
  lemma CleanRunMakesNoOrphans(noCross: bool, k: NamespacedName, ws: seq<World>, ls: seq<Label>, i: nat)
    requires IsRunFromStart(noCross, k, ws, ls) && i <= |ls| && CleanFrom(k, ws, ls, i)
    ensures Orphaned(k, ws[|ls|]) <= Orphaned(k, ws[i])
  {
    hide Step, Allowed, Abandoned, Orphaned, Initial;
    forall m | m in Orphaned(k, ws[|ls|]) ensures m in Orphaned(k, ws[i]) {
      var j := OrphansHaveACause(noCross, k, ws, ls, m);
      assert ls[j] == ls[j];
    }
  }

  /**
   No orphans, over whole runs with any interference: on a run that abandons
   nothing, every owned live object is in the persisted inventory or, while a
   call is in progress, in the one it is about to persist; or it is stale and
   about to be deleted.
   */
  lemma NoOrphans(noCross: bool, k: NamespacedName, ws: seq<World>, ls: seq<Label>)
    requires IsRunFromStart(noCross, k, ws, ls) && CleanFrom(k, ws, ls, 0)
    ensures Orphaned(k, ws[|ls|]) == {}
    ensures ws[|ls|].cell.pc == Idle ==> Owned(k, ws[|ls|].live) <= RecordedIn(ws[|ls|].cell.stored)
    ensures Owned(k, ws[|ls|].live) <= RecordedIn(ws[|ls|].cell.stored) + Recorded(ws[|ls|].cell.mem)
  {
    CleanRunMakesNoOrphans(noCross, k, ws, ls, 0);
    ReachableIsGood(noCross, k, ws, ls);
    GoodInventoried(k, ws[|ls|]);
    TrackedIsRecorded(k, ws[|ls|].cell);
    TrackedAtRest(ws[|ls|].cell);
    hide Owned, CleanFrom, IsRun, Good, Inventoried, Tracked, Recorded, RecordedIn;
    NoneOrphaned(k, ws[|ls|]);
  }

  lemma NoneOrphaned(k: NamespacedName, w: World)
    requires Orphaned(k, w) == {}
    ensures Owned(k, w.live) <= Tracked(w.cell)
  {
    hide Owned, Tracked;
    forall m | m in Owned(k, w.live) ensures m in Tracked(w.cell) {
      assert m !in Orphaned(k, w);
    }
  }

  lemma TrackedIsRecorded(k: NamespacedName, c: Cell)
    requires Inventoried(k, c)
    ensures Tracked(c) <= RecordedIn(c.stored) + Recorded(c.mem)
  {
    hide MetaSet, AllParse, Family, Build, Ids;
  }

  lemma TrackedAtRest(c: Cell)
    ensures c.pc == Idle ==> Tracked(c) == RecordedIn(c.stored)
  {
  }

  /** Without a persisted finalizer nothing is kept track of, because nothing was applied. */
  lemma NothingTracked(c: Cell)
    requires Shape(c) && (c.stored.None? || !c.stored.value.finalizer)
    ensures Tracked(c) == {} && c.pc != ApplyObjects
  {
    assert MetaSet([]) == {};
    hide MetaSet;
  }

  /**
   Objects are applied only under a persisted finalizer; so without one, every
   owned live object is an orphan, and on a clean run there is none.
   */
  lemma FinalizerFirst(noCross: bool, k: NamespacedName, ws: seq<World>, ls: seq<Label>)
    requires IsRunFromStart(noCross, k, ws, ls)
    ensures
      var e := ws[|ls|];
      && (e.cell.pc == ApplyObjects ==> e.cell.stored.Some? && e.cell.stored.value.finalizer)
      && (e.cell.stored.None? || !e.cell.stored.value.finalizer ==> Owned(k, e.live) == Orphaned(k, e))
      && (e.cell.stored.None? || !e.cell.stored.value.finalizer ==> CleanFrom(k, ws, ls, 0) ==> Owned(k, e.live) == {})
  {
    ReachableIsShaped(noCross, k, ws, ls);
    hide Shape, Owned, IsRun, CleanFrom, Tracked, Initial;
    if ws[|ls|].cell.stored.None? || !ws[|ls|].cell.stored.value.finalizer {
      NothingTracked(ws[|ls|].cell);
    }
    if CleanFrom(k, ws, ls, 0) {
      NoOrphans(noCross, k, ws, ls);
    }
  }

  lemma ReachableIsShaped(noCross: bool, k: NamespacedName, ws: seq<World>, ls: seq<Label>)
    requires IsRunFromStart(noCross, k, ws, ls)
    ensures Shape(ws[|ls|].cell)
  {
    ReachableIsGood(noCross, k, ws, ls);
    hide Shape, IsRunFromStart, Honest, Inventoried;
  }

  /**
   Complete finalization: if at some moment of a run there are no orphans, and
   nothing is abandoned from then on, then whenever the object is gone from the
   API server none of its objects is live. Whatever went wrong before that
   moment does not matter.
   */
  lemma CompleteFinalization(noCross: bool, k: NamespacedName, ws: seq<World>, ls: seq<Label>, i: nat)
    requires IsRunFromStart(noCross, k, ws, ls) && i <= |ls|
    requires Orphaned(k, ws[i]) == {} && CleanFrom(k, ws, ls, i)
    requires ws[|ls|].cell.stored.None?
    ensures Owned(k, ws[|ls|].live) == {}
  {
    CleanRunMakesNoOrphans(noCross, k, ws, ls, i);
    FinalizerFirst(noCross, k, ws, ls);
    hide Owned, IsRunFromStart, CleanFrom, Orphaned;
  }
}
