/** What every step of the machine keeps, and so every reachable state has. */
module Invariants {
  import opened Wrappers
  import opened ChangeSets
  import opened Inventory
  import opened Api
  import opened Sources
  import opened Manifests
  import opened Cluster
  import opened Machine

  /** Inside `reconcile`, after Ready was set to Unknown. */
  predicate Reconciling(pc: Pc) {
    match pc
    case Idle => false
    case GetSource => false
    case CanImpersonate => false
    case FinalClient => false
    case DeleteAll => false
    case Finish => false
    case _ => true
  }

  predicate Finalizing(pc: Pc) {
    pc == CanImpersonate || pc == FinalClient || pc == DeleteAll
  }

  /** The steps by which `reconcile` works on its copy without touching the API server. */
  predicate WorkLabel(pc: Pc, l: Label) {
    l.SourceIs? || (l.Client? && pc == GetClient) || l.Apply? || (l.Delete? && pc == DeleteStale) || l.Wait?
  }

  predicate UserLabel(l: Label) {
    l.Created? || l.Edited? || l.Requested? || l.DeletionRequested?
  }

  // ---------- finalizer and generation ----------

  predicate StoredShape(lm: LanguageModel) {
    && (lm.deleting ==> lm.finalizer)
    && (!lm.finalizer ==> lm.status == INITIAL_STATUS)
    && lm.status.observedGeneration <= lm.generation
  }

  predicate Present(c: Cell) {
    c.stored.Some? && c.stored.value.finalizer
  }

  predicate RunShape(c: Cell) {
    && (c.pc != Finish ==> Present(c) && c.mem.finalizer)
    && (c.pc == Finish ==> Present(c) || (c.mem.status == INITIAL_STATUS && c.mem.finalizer && !c.mem.deleting))
    && (Finalizing(c.pc) || !c.mem.finalizer ==> Present(c) && c.stored.value.deleting && c.mem.deleting)
    && (c.mem.deleting ==> Finalizing(c.pc) || c.pc == Finish)
    && (Present(c) ==> c.mem.generation <= c.stored.value.generation)
    && c.mem.status.observedGeneration <= c.mem.generation
    && (c.pc == GetSource ==> c.mem.spec.sourceRef.kind in KINDS)
  }

  predicate Shape(c: Cell) {
    && (c.stored.Some? ==> StoredShape(c.stored.value))
    && (c.pc != Idle ==> RunShape(c))
  }

  /** The object is as it was, apart from conditions, revisions and inventory of the copy. */
  predicate SameObject(c: Cell, d: Cell) {
    && d.stored == c.stored
    && d.mem.spec == c.mem.spec
    && d.mem.generation == c.mem.generation
    && d.mem.requested == c.mem.requested
    && d.mem.deleting == c.mem.deleting
    && d.mem.finalizer == c.mem.finalizer
    && d.mem.status.observedGeneration == c.mem.status.observedGeneration
    && d.mem.status.lastHandled == c.mem.status.lastHandled
  }

  lemma CheckHealthFacts(c: Cell)
    ensures SameObject(c, CheckHealth(c))
    ensures CheckHealth(c).mem.status.inventory == c.mem.status.inventory
    ensures CheckHealth(c).mem.status.lastAttempted == c.mem.status.lastAttempted
    ensures CheckHealth(c).artifact == c.artifact && CheckHealth(c).objs == c.objs
    ensures Entries(c.mem.status) != [] ==>
              && CheckHealth(c).pc == PatchChecking
              && CheckHealth(c).mem.status.ready == c.mem.status.ready
              && CheckHealth(c).mem.status.reconciling.Some?
    ensures Entries(c.mem.status) == [] ==>
              && CheckHealth(c).pc == Finish
              && IsReady(CheckHealth(c).mem.status)
              && CheckHealth(c).mem.status.lastApplied == c.artifact.revision
              && CheckHealth(c).mem.status.healthy.None?
  {
  }

  /** What applying does to the run, apart from the inventory. */
  lemma AfterApplyFacts(c: Cell, es: seq<ResourceRef>)
    ensures SameObject(c, AfterApply(c, es))
    ensures AfterApply(c, es).mem.status.inventory == Some(es)
    ensures AfterApply(c, es).mem.status.lastAttempted == c.mem.status.lastAttempted
    ensures AfterApply(c, es).artifact == c.artifact
    ensures AfterApply(c, es).pc in {Finish, DeleteStale, PatchChecking}
    ensures AfterApply(c, es).pc != Finish ==>
              AfterApply(c, es).mem.status.ready == c.mem.status.ready &&
              (|| AfterApply(c, es).mem.status.reconciling.Some?
               || AfterApply(c, es).mem.status.reconciling == c.mem.status.reconciling)
    ensures IsReady(AfterApply(c, es).mem.status) && !IsReady(c.mem.status) ==>
              AfterApply(c, es).mem.status.lastApplied == c.artifact.revision &&
              AfterApply(c, es).mem.status.healthy.None?
  {
    hide AllParse, MetaSet, CheckHealth;
    CheckHealthFacts(Record(c, es));
  }

  lemma WorkFrame(noCross: bool, k: NamespacedName, w: World, l: Label)
    requires Allowed(k, w, l) && WorkLabel(w.cell.pc, l)
    ensures SameObject(w.cell, Step(noCross, k, w, l).cell)
    ensures Reconciling(Step(noCross, k, w, l).cell.pc) || Step(noCross, k, w, l).cell.pc == Finish
    ensures w.cell.pc == GetSource || Reconciling(w.cell.pc)
  {
    hide Build, AllParse, MetaSet, Refs, Reports, Desired, ApplyTo, DeleteFrom, Kept, Owned, CheckHealth, Restrict;
    hide AfterApply;
    hide OnGet, OnPatch, OnFinish, OnDeleteAll, OnUser;
    if l.Apply? && l.apply.Applied? {
      AfterApplyFacts(w.cell, Refs(l.apply.entries));
    } else if l.Delete? {
      CheckHealthFacts(w.cell);
    }
  }

  /** The other steps do not touch the persisted object. */
  lemma OtherKeepsStored(noCross: bool, k: NamespacedName, w: World, l: Label)
    requires Allowed(k, w, l) && !l.Patch? && !UserLabel(l)
    ensures Step(noCross, k, w, l).cell.stored == w.cell.stored
  {
    hide OnPatch, OnFinish, OnUser, Build, AllParse, MetaSet, Refs, Reports, Owned, CheckHealth, AfterApply;
    hide Resolve, FinalTargets;
    if l.Apply? && l.apply.Applied? {
      AfterApplyFacts(w.cell, Refs(l.apply.entries));
    } else if l.Delete? {
      CheckHealthFacts(w.cell);
    }
  }

  /** What a patch does to the persisted object, given what the copy was before. */
  lemma PatchStored(c: Cell, copy: LanguageModel, r: PatchReply)
    requires copy == if c.pc == Finish then FinalizeStatus(c.mem) else c.mem
    ensures (if c.pc == Finish then OnFinish(c, r) else OnPatch(c, r)).stored ==
            if !Persists(r) || c.stored.None? then c.stored
            else if c.stored.value.deleting && !copy.finalizer then None
            else Some(c.stored.value.(finalizer := copy.finalizer, status := copy.status))
  {
    hide FinalizeStatus, MetaSet;
  }

  lemma NothingToGet(noCross: bool, k: NamespacedName, w: World)
    requires w.cell.stored.None?
    ensures OnGet(noCross, k, w.cell) == w.cell.(outcome := NoRequeue)
  {
  }

  lemma PatchKeepsShape(c: Cell, r: PatchReply)
    requires Shape(c) && IsPatch(c.pc) && c.pc != Finish
    ensures Shape(OnPatch(c, r))
    ensures Reconciling(OnPatch(c, r).pc) || OnPatch(c, r).pc == Finish
  {
  }

  lemma FinishKeepsShape(c: Cell, r: PatchReply)
    requires Shape(c) && c.pc == Finish
    ensures Shape(OnFinish(c, r))
  {
    hide MetaSet;
  }

  lemma GetKeepsShape(noCross: bool, k: NamespacedName, w: World)
    requires Shape(w.cell) && w.cell.pc == Idle
    ensures Shape(OnGet(noCross, k, w.cell))
  {
    if w.cell.stored.Some? {
      LookupByKind(noCross, k, w.cell.stored.value.spec.sourceRef);
    }
    hide Resolve;
  }

  lemma UserKeepsShape(c: Cell, l: Label)
    requires Shape(c) && UserLabel(l)
    ensures Shape(c.(stored := OnUser(c.stored, l)))
  {
  }

  lemma FinalizationKeepsShape(noCross: bool, k: NamespacedName, w: World, l: Label)
    requires Allowed(k, w, l) && Shape(w.cell)
    requires Finalizing(w.cell.pc) && (l.Impersonation? || l.Client? || l.Delete?)
    ensures Shape(Step(noCross, k, w, l).cell)
  {
    hide AllParse, MetaSet, DeleteFrom, Kept, Owned, OnGet, OnPatch, OnFinish, OnClient, OnApply, OnDeleteStale;
  }

  lemma StepKeepsShape(noCross: bool, k: NamespacedName, w: World, l: Label)
    requires Allowed(k, w, l) && Shape(w.cell)
    ensures Shape(Step(noCross, k, w, l).cell)
  {
    hide OnGet, OnSource, OnPatch, OnClient, OnApply, OnDeleteStale, OnWait, OnFinish, OnUser;
    hide OnImpersonation, OnFinalClient, OnDeleteAll, Reports, Owned;
    var c := w.cell;
    if WorkLabel(c.pc, l) {
      WorkFrame(noCross, k, w, l);
    } else if Finalizing(c.pc) && (l.Impersonation? || l.Client? || l.Delete?) {
      FinalizationKeepsShape(noCross, k, w, l);
    } else if UserLabel(l) {
      UserKeepsShape(c, l);
    } else if l.Get? {
      GetKeepsShape(noCross, k, w);
    } else if l.Patch? {
      if c.pc == Finish {
        FinishKeepsShape(c, l.patch);
      } else {
        PatchKeepsShape(c, l.patch);
      }
    }
  }

  // ---------- conditions and revisions ----------

  /** A status that claims to be ready has nothing pending and has applied what it attempted. */
  predicate HonestStatus(s: Status) {
    IsReady(s) ==> s.lastApplied == s.lastAttempted && s.reconciling.None? && HealthyOrUnchecked(s)
  }

  predicate HealthyOrUnchecked(s: Status) {
    s.healthy.None? || s.healthy.value.status == True
  }

  predicate RunHonest(c: Cell) {
    var s := c.mem.status;
    && (Reconciling(c.pc) ==>
          && s.ready.Some? && s.ready.value.status == Unknown && s.reconciling.Some?
          && (c.pc != PatchProgressing ==> s.lastAttempted == c.artifact.revision)
          && (c.pc == PatchHealthy ==> HealthyOrUnchecked(s)))
    && (c.pc == GetSource || Finalizing(c.pc) ==> HonestStatus(s))
    && (c.pc == Finish && IsReady(s) ==> s.lastApplied == s.lastAttempted && HealthyOrUnchecked(s))
  }

  predicate Honest(c: Cell) {
    && (c.stored.Some? ==> HonestStatus(c.stored.value.status))
    && (c.pc != Idle ==> RunHonest(c))
  }

  lemma GetKeepsHonest(noCross: bool, k: NamespacedName, w: World)
    requires Honest(w.cell) && w.cell.pc == Idle
    ensures Honest(OnGet(noCross, k, w.cell))
  {
    hide Resolve, Owned;
  }

  lemma FinishKeepsHonest(c: Cell, r: PatchReply)
    requires Honest(c) && c.pc == Finish
    ensures Honest(OnFinish(c, r))
  {
  }

  lemma FailedPatchKeepsHonest(c: Cell, r: PatchReply)
    requires Honest(c) && IsPatch(c.pc) && c.pc != Finish && r != Patched
    ensures Honest(OnPatch(c, r))
  {
  }

  lemma SuccessKeepsHonest(c: Cell)
    requires Honest(c) && c.pc == PatchHealthy
    ensures Honest(OnPatch(c, Patched))
  {
  }

  lemma PatchKeepsHonest(c: Cell)
    requires Honest(c) && IsPatch(c.pc) && c.pc != Finish && c.pc != PatchHealthy
    ensures Honest(OnPatch(c, Patched))
  {
    hide Succeed, HealthyOrUnchecked;
  }

  lemma ApplyKeepsHonest(k: NamespacedName, w: World, r: ApplyReply)
    requires w.cell.pc == ApplyObjects && Honest(w.cell)
    ensures Honest(OnApply(k, w, r).cell)
  {
    hide MetaSet, Refs, Desired, ApplyTo, Owned, Restrict, AfterApply;
    if r.Applied? {
      AfterApplyFacts(w.cell, Refs(r.entries));
    }
  }

  lemma DeleteStaleKeepsHonest(k: NamespacedName, w: World, r: DeleteReply)
    requires w.cell.pc == DeleteStale && Honest(w.cell)
    ensures Honest(OnDeleteStale(k, w, r).cell)
  {
    hide DeleteFrom, Kept, Owned, CheckHealth;
    CheckHealthFacts(w.cell);
  }

  lemma WorkKeepsHonest(noCross: bool, k: NamespacedName, w: World, l: Label)
    requires Allowed(k, w, l) && Honest(w.cell) && WorkLabel(w.cell.pc, l)
    ensures Honest(Step(noCross, k, w, l).cell)
  {
    hide Build, Reports, OnGet, OnPatch, OnFinish, OnDeleteAll, OnUser, OnApply, OnDeleteStale;
    if l.Apply? {
      ApplyKeepsHonest(k, w, l.apply);
    } else if l.Delete? {
      DeleteStaleKeepsHonest(k, w, l.delete);
    }
  }

  lemma StepKeepsHonest(noCross: bool, k: NamespacedName, w: World, l: Label)
    requires Allowed(k, w, l) && Honest(w.cell)
    ensures Honest(Step(noCross, k, w, l).cell)
  {
    hide OnGet, OnSource, OnPatch, OnClient, OnApply, OnDeleteStale, OnWait, OnFinish, Reports, Owned, AllParse;
    hide MetaSet, Kept, DeleteFrom;
    var c := w.cell;
    if WorkLabel(c.pc, l) {
      WorkKeepsHonest(noCross, k, w, l);
    } else if l.Get? {
      GetKeepsHonest(noCross, k, w);
    } else if l.Patch? {
      if c.pc == Finish {
        FinishKeepsHonest(c, l.patch);
      } else if l.patch == Patched && c.pc == PatchHealthy {
        SuccessKeepsHonest(c);
      } else if l.patch == Patched {
        PatchKeepsHonest(c);
      } else {
        FailedPatchKeepsHonest(c, l.patch);
      }
    }
  }

  // ---------- inventories ----------

  predicate GoodInventory(k: NamespacedName, s: Status) {
    AllParse(Entries(s)) && MetaSet(Entries(s)) <= Family(k)
  }

  predicate BeforeApply(pc: Pc) {
    || pc == GetSource || pc == PatchProgressing || pc == PatchAttempted
    || pc == GetClient || pc == PatchDrift || pc == ApplyObjects
  }

  predicate RunRecorded(k: NamespacedName, c: Cell) {
    && GoodInventory(k, c.mem.status)
    && (BeforeApply(c.pc) || Finalizing(c.pc) ==>
          c.stored.Some? && c.stored.value.status.inventory == c.mem.status.inventory)
    && (c.pc == PatchDrift || c.pc == ApplyObjects ==> Build(k, c.mem.spec, c.artifact) == Success(c.objs))
    && (c.pc == DeleteStale ==> c.stale == RecordedIn(c.stored) - Recorded(c.mem))
    && (c.pc == DeleteStale || c.pc == PatchChecking ==> Recorded(c.mem) == Ids(c.objs))
    && (c.pc == WaitHealthy || c.pc == PatchHealthy ==>
          c.stored.Some? && c.stored.value.status.inventory == c.mem.status.inventory)
  }

  predicate Inventoried(k: NamespacedName, c: Cell) {
    && (c.stored.Some? ==> GoodInventory(k, c.stored.value.status))
    && (c.pc != Idle ==> RunRecorded(k, c))
  }

  /** What applying does to inventory and stale set, when both inventories parse. */
  lemma AfterApplyInventory(c: Cell, es: seq<ResourceRef>)
    requires AllParse(Entries(c.mem.status)) && AllParse(es) && es != []
    ensures Entries(AfterApply(c, es).mem.status) == es
    ensures AfterApply(c, es).stored == c.stored && AfterApply(c, es).objs == c.objs
    ensures c.mem.spec.prune ==>
              && AfterApply(c, es).pc == DeleteStale
              && AfterApply(c, es).stale == Recorded(c.mem) - MetaSet(es)
    ensures !c.mem.spec.prune ==> AfterApply(c, es).pc == PatchChecking
  {
    hide AllParse, MetaSet;
  }

  /** A successful apply records exactly the built objects. */
  lemma AppliedInventory(k: NamespacedName, w: World, entries: seq<ChangeSetEntry>)
    requires ValidName(k)
    requires Build(k, w.cell.mem.spec, w.cell.artifact) == Success(w.cell.objs)
    requires Reports(k, w.live, w.cell.objs, entries)
    ensures AllParse(Refs(entries)) && Refs(entries) != []
    ensures MetaSet(Refs(entries)) == Ids(w.cell.objs) <= Family(k)
  {
    hide Build;
    BuildFacts(k, w.cell.mem.spec, w.cell.artifact);
    FamilyWellFormed(k);
    RecordedIds(k, w.live, w.cell.objs, entries);
    ReportedIds(k, w.live, w.cell.objs, entries);
  }

  lemma ApplyKeepsInventoried(k: NamespacedName, w: World, r: ApplyReply)
    requires ValidName(k)
    requires Allowed(k, w, Apply(r)) && Inventoried(k, w.cell)
    ensures Inventoried(k, OnApply(k, w, r).cell)
  {
    hide Build, AllParse, MetaSet, Refs, Reports, ApplyTo, Desired, Owned, Family, Ids, AfterApply, Restrict;
    if r.Applied? {
      AppliedInventory(k, w, r.entries);
      AfterApplyInventory(w.cell, Refs(r.entries));
    }
  }

  lemma WorkKeepsInventoried(noCross: bool, k: NamespacedName, w: World, l: Label)
    requires Allowed(k, w, l) && Inventoried(k, w.cell) && WorkLabel(w.cell.pc, l) && !l.Apply?
    ensures Inventoried(k, Step(noCross, k, w, l).cell)
  {
    hide Build, AllParse, MetaSet, DeleteFrom, Kept, Owned, Family, Ids, CheckHealth;
    hide OnGet, OnPatch, OnFinish, OnDeleteAll, OnUser, OnApply, OnDeleteStale;
    if l.Delete? {
      DeleteStaleKeepsInventoried(k, w, l.delete);
    }
  }

  lemma DeleteStaleKeepsInventoried(k: NamespacedName, w: World, r: DeleteReply)
    requires w.cell.pc == DeleteStale && Inventoried(k, w.cell)
    ensures Inventoried(k, OnDeleteStale(k, w, r).cell)
  {
    hide Build, AllParse, MetaSet, DeleteFrom, Kept, Owned, Family, Ids, CheckHealth;
    CheckHealthFacts(w.cell);
  }

  lemma GetKeepsInventoried(noCross: bool, k: NamespacedName, w: World)
    requires Inventoried(k, w.cell) && w.cell.pc == Idle
    ensures Inventoried(k, OnGet(noCross, k, w.cell))
  {
    hide Resolve, Owned, AllParse, MetaSet, Family, Build;
  }

  lemma FinishKeepsInventoried(k: NamespacedName, c: Cell, r: PatchReply)
    requires Inventoried(k, c) && c.pc == Finish
    ensures Inventoried(k, OnFinish(c, r))
  {
    hide GoodInventory, FinalizeStatus;
    FinalizeKeepsEntries(k, c.mem);
  }

  lemma FinalizeKeepsEntries(k: NamespacedName, lm: LanguageModel)
    ensures GoodInventory(k, FinalizeStatus(lm).status) <==> GoodInventory(k, lm.status)
  {
    hide AllParse, MetaSet, Family;
  }

  lemma SameEntries(k: NamespacedName, s: Status, t: Status)
    requires s.inventory == t.inventory
    ensures GoodInventory(k, s) == GoodInventory(k, t)
  {
    hide AllParse, MetaSet, Family;
  }

  lemma FailedPatchFacts(c: Cell, r: PatchReply)
    requires c.pc != Finish && r != Patched
    ensures OnPatch(c, r).pc == Finish && OnPatch(c, r).mem.status.inventory == c.mem.status.inventory
    ensures OnPatch(c, r).stored == c.stored || OnPatch(c, r).stored.None? ||
            OnPatch(c, r).stored.value.status.inventory == c.mem.status.inventory
  {
  }

  lemma FailedPatchKeepsInventoried(k: NamespacedName, c: Cell, r: PatchReply)
    requires Inventoried(k, c) && IsPatch(c.pc) && c.pc != Finish && r != Patched
    ensures Inventoried(k, OnPatch(c, r))
  {
    hide GoodInventory, OnPatch, Build, Ids, MetaSet;
    var d := OnPatch(c, r);
    FailedPatchFacts(c, r);
    SameEntries(k, c.mem.status, d.mem.status);
    if d.stored.Some? && d.stored != c.stored {
      SameEntries(k, c.mem.status, d.stored.value.status);
    }
  }

  lemma PatchKeepsInventoried(k: NamespacedName, c: Cell)
    requires Inventoried(k, c) && IsPatch(c.pc) && c.pc != Finish && c.mem.finalizer && c.stored.Some?
    ensures Inventoried(k, OnPatch(c, Patched))
  {
    hide AllParse, MetaSet, Family, Build, Ids;
  }

  lemma FinalizationKeepsInventoried(noCross: bool, k: NamespacedName, w: World, l: Label)
    requires Allowed(k, w, l) && Inventoried(k, w.cell)
    requires Finalizing(w.cell.pc) && (l.Impersonation? || l.Client? || l.Delete?)
    ensures Inventoried(k, Step(noCross, k, w, l).cell)
  {
    hide AllParse, MetaSet, Family, DeleteFrom, Kept, Owned, Build, OnGet, OnPatch, OnFinish, OnClient, OnApply;
    hide OnDeleteStale;
  }

  /** Users can change the object while a run is in progress, but not what it has recorded, if it has a finalizer. */
  lemma UserKeepsInventoried(k: NamespacedName, c: Cell, l: Label)
    requires Shape(c) && Inventoried(k, c) && UserLabel(l)
    requires l.Created? ==> c.stored.None?
    ensures Inventoried(k, c.(stored := OnUser(c.stored, l)))
  {
    assert AllParse([]) && MetaSet([]) == {};
    hide AllParse, MetaSet, Family, Build, Ids;
  }

  lemma StepKeepsInventoried(noCross: bool, k: NamespacedName, w: World, l: Label)
    requires ValidName(k)
    requires Allowed(k, w, l) && Shape(w.cell) && Inventoried(k, w.cell)
    ensures Inventoried(k, Step(noCross, k, w, l).cell)
  {
    hide OnGet, OnSource, OnPatch, OnClient, OnApply, OnDeleteStale, OnWait, OnFinish, OnUser;
    hide OnImpersonation, OnFinalClient, OnDeleteAll, Reports, Owned, AllParse, MetaSet, Family, Build, Ids;
    var c := w.cell;
    if l.Apply? {
      ApplyKeepsInventoried(k, w, l.apply);
    } else if WorkLabel(c.pc, l) {
      WorkKeepsInventoried(noCross, k, w, l);
    } else if Finalizing(c.pc) && (l.Impersonation? || l.Client? || l.Delete?) {
      FinalizationKeepsInventoried(noCross, k, w, l);
    } else if UserLabel(l) {
      UserKeepsInventoried(k, c, l);
    } else if l.Get? {
      GetKeepsInventoried(noCross, k, w);
    } else if l.Patch? {
      if c.pc == Finish {
        FinishKeepsInventoried(k, c, l.patch);
      } else if l.patch == Patched {
        PatchKeepsInventoried(k, c);
      } else {
        FailedPatchKeepsInventoried(k, c, l.patch);
      }
    }
  }
}
