/** What a Reconcile call that succeeds leaves behind, whatever happened before it. */
module Success {
  import opened Wrappers
  import opened Inventory
  import opened Api
  import opened Sources
  import opened Manifests
  import opened Cluster
  import opened Machine
  import opened Invariants
  import opened Safety
  import opened Orphans
  import opened Convergence
  import opened Observation

  /** Since the last successful apply nobody else has changed live objects. */
  predicate Undisturbed(ls: seq<Label>) {
    ls != [] &&
    var l := ls[|ls| - 1];
    if l.Apply? then l.apply.Applied?
    else !l.Outside? && Undisturbed(ls[..|ls| - 1])
  }

  /** The call is about to end successfully. */
  predicate Ending(c: Cell) {
    c.pc == Finish && c.outcome == NextInterval
  }

  predicate LiveAsBuilt(k: NamespacedName, w: World, undisturbed: bool) {
    undisturbed && (PastApply(w.cell.pc) || Ending(w.cell)) ==> AllAsBuilt(k, w.live, w.cell.objs)
  }

  lemma ApplyLeavesBuilt(k: NamespacedName, w: World, r: ApplyReply)
    requires w.cell.pc == ApplyObjects && Inventoried(k, w.cell)
    ensures LiveAsBuilt(k, OnApply(k, w, r), r.Applied?)
  {
    hide Build, AllParse, MetaSet, Refs, ApplyTo, Desired, Restrict, AfterApply, AsBuilt, DistinctIds, Family, Ids;
    if r.Applied? {
      BuildFacts(k, w.cell.mem.spec, w.cell.artifact);
      AppliedIsLive(k, w.live, w.cell.objs);
      AfterApplyKeepsObjects(w.cell, Refs(r.entries));
    }
  }

  lemma AfterApplyKeepsObjects(c: Cell, es: seq<ResourceRef>)
    ensures AfterApply(c, es).objs == c.objs
  {
    hide AllParse, MetaSet;
  }

  lemma PruningLeavesBuilt(k: NamespacedName, w: World, r: DeleteReply, undisturbed: bool)
    requires w.cell.pc == DeleteStale && Inventoried(k, w.cell) && LiveAsBuilt(k, w, undisturbed)
    ensures LiveAsBuilt(k, OnDeleteStale(k, w, r), undisturbed)
  {
    hide Build, AllParse, MetaSet, DeleteFrom, CheckHealth, AllAsBuilt, Family;
    CheckHealthFacts(w.cell);
    if undisturbed {
      DeleteLeavesBuilt(k, w.live, w.cell.stale, w.cell.objs);
      if r.DeleteFailed? {
        DeleteLeavesBuilt(k, w.live, w.cell.stale * r.part, w.cell.objs);
      }
    }
  }

  /** A step that leaves live objects alone either goes on with the objects it has or ends the call without success. */
  lemma QuietStep(noCross: bool, k: NamespacedName, w: World, l: Label, undisturbed: bool)
    requires Allowed(k, w, l) && LiveAsBuilt(k, w, undisturbed)
    requires !l.Apply? && !l.Outside? && !(l.Delete? && w.cell.pc == DeleteStale)
    ensures LiveAsBuilt(k, Step(noCross, k, w, l), undisturbed)
  {
    hide AllAsBuilt, Build, MetaSet, Resolve, OnApply, OnDeleteStale, AllParse, DeleteFrom, FinalizeStatus, Owned;
    hide Reports;
  }

  lemma StepKeepsLive(noCross: bool, k: NamespacedName, w: World, l: Label, ls: seq<Label>)
    requires Allowed(k, w, l) && Inventoried(k, w.cell) && LiveAsBuilt(k, w, Undisturbed(ls))
    ensures LiveAsBuilt(k, Step(noCross, k, w, l), Undisturbed(ls + [l]))
  {
    assert (ls + [l])[..|ls|] == ls;
    if l.Apply? {
      ApplyLeavesBuilt(k, w, l.apply);
    } else if l.Delete? && w.cell.pc == DeleteStale {
      PruningLeavesBuilt(k, w, l.delete, Undisturbed(ls));
    } else if !l.Outside? {
      QuietStep(noCross, k, w, l, Undisturbed(ls));
    }
    hide LiveAsBuilt, Inventoried, OnApply, OnDeleteStale, OnDeleteAll, OnGet, OnPatch, OnFinish, OnUser, Reports;
    hide Owned;
  }

  lemma {:induction false} RunKeepsLive(noCross: bool, k: NamespacedName, ws: seq<World>, ls: seq<Label>)
    requires IsRunFromStart(noCross, k, ws, ls)
    ensures LiveAsBuilt(k, ws[|ls|], Undisturbed(ls))
    decreases |ls|
  {
    hide Step, Allowed, Good, Owned;
    if ls != [] {
      hide LiveAsBuilt, Initial, Undisturbed, Inventoried;
      var n := |ls| - 1;
      RunInit(noCross, k, ws, ls);
      RunKeepsLive(noCross, k, ws[..n + 1], ls[..n]);
      ReachableIsGood(noCross, k, ws[..n + 1], ls[..n]);
      GoodInventoried(k, ws[n]);
      StepKeepsLive(noCross, k, ws[n], ls[n], ls[..n]);
      assert ls[..n] + [ls[n]] == ls;
    }
  }

  /** A call about to end with success: it read an object it had to reconcile, and Ready is true. */
  predicate Succeeding(c: Cell) {
    c.pc == Finish && IsReady(c.mem.status) && !c.mem.spec.suspend && !c.mem.deleting
  }

  lemma SuccessfulPatch(k: NamespacedName, c: Cell, r: PatchReply)
    requires Succeeding(c) && Shape(c) && Faithful(k, c) && Persists(r) && c.stored.Some?
    ensures Ending(c) && Build(k, c.mem.spec, c.artifact) == Success(c.objs)
    ensures OnFinish(c, r).stored.Some? && OnFinish(c, r).objs == c.objs
    ensures Recorded(OnFinish(c, r).stored.value) == Ids(c.objs) == Recorded(c.mem)
  {
    hide Build, MetaSet, Ids, FinalizeStatus;
    FinalizeKeepsInventory(c.mem);
  }

  lemma LastIsQuiet(ls: seq<Label>, r: PatchReply)
    requires ls != [] && ls[|ls| - 1] == Patch(r)
    ensures Undisturbed(ls) == Undisturbed(ls[..|ls| - 1])
  {
  }

  lemma LiveAtEnd(k: NamespacedName, w: World, undisturbed: bool)
    requires LiveAsBuilt(k, w, undisturbed) && Ending(w.cell)
    ensures undisturbed ==> AllAsBuilt(k, w.live, w.cell.objs)
  {
  }

  /**
   After a successful call whose final patch is persisted, every object its spec
   asked for is recorded, none of them is an orphan, and, unless somebody
   interfered since the apply, each is live as built or opts out of it. This
   holds through any edits meanwhile, and after any failures before.
   */
  lemma SuccessIsLive(noCross: bool, k: NamespacedName, ws: seq<World>, ls: seq<Label>, r: PatchReply)
    requires IsRunFromStart(noCross, k, ws, ls) && ls != [] && ls[|ls| - 1] == Patch(r) && Persists(r)
    requires Succeeding(ws[|ls| - 1].cell)
    ensures
      var c, e := ws[|ls| - 1].cell, ws[|ls|];
      && Build(k, c.mem.spec, c.artifact) == Success(c.objs)
      && e.cell.pc == Idle && e.cell.stored.Some?
      && Recorded(e.cell.stored.value) == Ids(c.objs)
      && Orphaned(k, e) * Ids(c.objs) == {}
      && (Undisturbed(ls) ==> AllAsBuilt(k, e.live, c.objs))
  {
    hide *;
    var w := LastStepFacts(noCross, k, ws, ls, r);
    LastIsQuiet(ls, r);
    PatchStep(noCross, k, w, r);
    SuccessfulEnd(k, w, r, Undisturbed(ls[..|ls| - 1]));
  }

  lemma SuccessfulEnd(k: NamespacedName, w: World, r: PatchReply, undisturbed: bool)
    requires Succeeding(w.cell) && Shape(w.cell) && Faithful(k, w.cell) && Persists(r) && w.cell.stored.Some?
    requires LiveAsBuilt(k, w, undisturbed)
    ensures
      var c, e := w.cell, w.(cell := OnFinish(w.cell, r));
      && Build(k, c.mem.spec, c.artifact) == Success(c.objs)
      && e.cell.pc == Idle && e.cell.stored.Some?
      && Recorded(e.cell.stored.value) == Ids(c.objs)
      && Orphaned(k, e) * Ids(c.objs) == {}
      && (undisturbed ==> AllAsBuilt(k, e.live, c.objs))
  {
    FinalPatchKeepsOrphans(k, w, r);
    SuccessfulPatch(k, w.cell, r);
    RecordedIsTracked(k, w, r);
    LiveAtEnd(k, w, undisturbed);
    hide *;
  }

  lemma LastStepFacts(
      noCross: bool, k: NamespacedName, ws: seq<World>, ls: seq<Label>, r: PatchReply)
    returns (w: World)
    requires IsRunFromStart(noCross, k, ws, ls) && ls != [] && ls[|ls| - 1] == Patch(r) && Persists(r)
    requires Succeeding(ws[|ls| - 1].cell)
    ensures |ws| == |ls| + 1 && w == ws[|ls| - 1]
    ensures
      && w.cell.pc == Finish && IsPatch(w.cell.pc) && w.cell.stored.Some?
      && Shape(w.cell) && Faithful(k, w.cell)
      && LiveAsBuilt(k, w, Undisturbed(ls[..|ls| - 1]))
      && ws[|ls|] == Step(noCross, k, w, Patch(r))
  {
    hide Step, Good, LiveAsBuilt, Initial, Undisturbed, Faithful, IsReady;
    var n := |ls| - 1;
    RunInit(noCross, k, ws, ls);
    ReachableIsGood(noCross, k, ws[..n + 1], ls[..n]);
    GoodFacts(k, ws[n]);
    RunIsFaithful(noCross, k, ws[..n + 1], ls[..n]);
    RunKeepsLive(noCross, k, ws[..n + 1], ls[..n]);
    hide Shape, Honest, IsRun;
    w := ws[n];
  }

  /** What is recorded at the end of a successful call is no orphan. */
  lemma RecordedIsTracked(k: NamespacedName, w: World, r: PatchReply)
    requires Succeeding(w.cell) && Shape(w.cell) && Persists(r) && w.cell.stored.Some?
    ensures Orphaned(k, w.(cell := OnFinish(w.cell, r))) * Recorded(w.cell.mem) == {}
  {
    hide MetaSet, Owned, FinalizeStatus;
    FinalizeKeepsInventory(w.cell.mem);
  }
}
