/** The theorems about whole runs of one LanguageModel under its controller. */
module Safety {
  import opened Wrappers
  import opened Inventory
  import opened Api
  import opened Sources
  import opened Manifests
  import opened Cluster
  import opened Machine
  import opened Invariants

  predicate Good(k: NamespacedName, w: World) {
    && Shape(w.cell)
    && Honest(w.cell)
    && Inventoried(k, w.cell)
  }

  lemma StepKeepsGood(noCross: bool, k: NamespacedName, w: World, l: Label)
    requires ValidName(k) && Allowed(k, w, l) && Good(k, w)
    ensures Good(k, Step(noCross, k, w, l))
  {
    StepKeepsShape(noCross, k, w, l);
    StepKeepsHonest(noCross, k, w, l);
    StepKeepsInventoried(noCross, k, w, l);
    hide Step, Shape, Honest, Inventoried, Allowed;
  }

  lemma InitialIsGood(k: NamespacedName, w: World)
    requires Initial(k, w)
    ensures Good(k, w)
  {
    hide Family, Owned, AllParse;
  }

  lemma {:induction false} ReachableIsGood(noCross: bool, k: NamespacedName, ws: seq<World>, ls: seq<Label>)
    requires IsRunFromStart(noCross, k, ws, ls)
    ensures Good(k, ws[|ls|])
    decreases |ls|
  {
    hide Step, Good, Allowed, Initial;
    var n := |ls| - 1;
    if ls == [] {
      InitialIsGood(k, ws[0]);
    } else {
      RunInit(noCross, k, ws, ls);
      ReachableIsGood(noCross, k, ws[..n + 1], ls[..n]);
      StepKeepsGood(noCross, k, ws[n], ls[n]);
    }
  }

  lemma GoodInventoried(k: NamespacedName, w: World)
    requires Good(k, w)
    ensures Inventoried(k, w.cell)
  {
  }

  lemma FinalizeKeepsInventory(lm: LanguageModel)
    ensures FinalizeStatus(lm).status.inventory == lm.status.inventory
    ensures FinalizeStatus(lm).finalizer == lm.finalizer
  {
  }

  // ---------- pruning and finalizing ----------

  /**
   The parse error that finalization ignores cannot happen: what it deletes is
   always the whole persisted inventory.
   */
  lemma FinalizationSeesEverything(noCross: bool, k: NamespacedName, ws: seq<World>, ls: seq<Label>)
    requires IsRunFromStart(noCross, k, ws, ls)
    requires ws[|ls|].cell.pc == DeleteAll
    ensures FinalTargets(ws[|ls|].cell) == RecordedIn(ws[|ls|].cell.stored)
  {
    ReachableIsGood(noCross, k, ws, ls);
    hide MetaSet, Owned, Family, Initial, Build, Ids;
  }

  /**
   What a reconciliation deletes is none of what it has just applied, and all
   of it was in the persisted inventory; nothing but owned targets disappears,
   and nothing else changes.
   */
  lemma PruneSafety(noCross: bool, k: NamespacedName, ws: seq<World>, ls: seq<Label>)
    requires IsRunFromStart(noCross, k, ws, ls) && ls != []
    requires ls[|ls| - 1].Delete? && ws[|ls| - 1].cell.pc == DeleteStale
    ensures
      var before, live := ws[|ls| - 1], ws[|ls|].live;
      var stale := before.cell.stale;
      && stale * Ids(before.cell.objs) == {}
      && stale <= RecordedIn(before.cell.stored)
      && before.live.Keys - live.Keys <= stale * Owned(k, before.live)
      && (forall m :: m in live ==> m in before.live && live[m] == before.live[m])
      && (ls[|ls| - 1].delete.DeletedAll? ==>
            forall m :: m in stale && m in live ==> live[m].owner != Some(k) || live[m].SkipsDelete())
  {
    hide MetaSet, Family, Initial, Build, Ids, CheckHealth, AfterApply;
    RunInit(noCross, k, ws, ls);
    ReachableIsGood(noCross, k, ws[..|ls|], ls[..|ls| - 1]);
  }

  /** The object is live as built, unless it opts out of being applied. */
  predicate AsBuilt(k: NamespacedName, live: LiveObjects, o: Object) {
    o.meta in live &&
    (live[o.meta].SkipsApply() || (live[o.meta].owner == Some(k) && live[o.meta].manifest == o.manifest))
  }

  predicate AllAsBuilt(k: NamespacedName, live: LiveObjects, objs: seq<Object>) {
    forall o :: o in objs ==> AsBuilt(k, live, o)
  }

  /** After a successful apply every built object is live as built. */
  lemma AppliedIsLive(k: NamespacedName, live: LiveObjects, objs: seq<Object>)
    requires DistinctIds(objs)
    ensures forall o :: o in objs ==> AsBuilt(k, ApplyTo(k, live, Desired(objs)), o)
  {
    DesiredLookup(objs);
  }

  // ---------- honest status ----------

  /**
   In every reachable state, mid-run patches and failure exits included, a
   status that says Ready has applied exactly the revision it attempted, has no
   Reconciling condition and no unhealthy one; and no status claims to have
   observed a generation that does not exist yet.
   */
  lemma HonestReady(noCross: bool, k: NamespacedName, ws: seq<World>, ls: seq<Label>)
    requires IsRunFromStart(noCross, k, ws, ls)
    requires ws[|ls|].cell.stored.Some?
    ensures
      var lm := ws[|ls|].cell.stored.value;
      && lm.status.observedGeneration <= lm.generation
      && (IsReady(lm.status) ==>
            && lm.status.lastApplied == lm.status.lastAttempted
            && lm.status.reconciling.None?
            && (lm.status.healthy.None? || lm.status.healthy.value.status == True))
  {
    ReachableIsGood(noCross, k, ws, ls);
    hide MetaSet, Owned, Family, Initial, Build, Ids;
  }

  /** The copy has the spec, generation and request of what was read, and what it had observed and handled. */
  predicate SameRead(lm: LanguageModel, copy: LanguageModel) {
    && copy.spec == lm.spec && copy.generation == lm.generation && copy.requested == lm.requested
    && copy.status.observedGeneration == lm.status.observedGeneration
    && copy.status.lastHandled == lm.status.lastHandled
  }

  lemma GetReads(noCross: bool, k: NamespacedName, c: Cell)
    requires c.stored.Some?
    ensures SameRead(c.stored.value, OnGet(noCross, k, c).mem)
  {
    hide Resolve;
  }

  lemma StepKeepsRead(noCross: bool, k: NamespacedName, w: World, l: Label)
    requires Allowed(k, w, l) && w.cell.pc != Idle && Step(noCross, k, w, l).cell.pc != Idle
    ensures SameRead(w.cell.mem, Step(noCross, k, w, l).cell.mem)
  {
    hide OnSource, OnClient, OnApply, OnDeleteStale, OnWait, OnUser, Reports, Owned, FinalTargets, DeleteFrom;
    hide OnPatch, OnGet;
    if WorkLabel(w.cell.pc, l) {
      WorkFrame(noCross, k, w, l);
    } else if l.Patch? {
      PatchKeepsRead(w.cell, l.patch);
    }
  }

  lemma PatchKeepsRead(c: Cell, r: PatchReply)
    ensures SameRead(c.mem, OnPatch(c, r).mem) && OnFinish(c, r).pc == Idle
  {
    StoreKeepsCopy(c);
    hide FinalizeStatus, Store;
  }

  lemma StoreKeepsCopy(c: Cell)
    ensures Store(c) == c.(stored := Store(c).stored)
  {
  }

  /** The call that reads the object in the i-th step has not ended before the n-th. */
  predicate SameCall(ws: seq<World>, ls: seq<Label>, i: nat, n: nat)
    requires i <= n < |ws| && i < |ls|
  {
    ls[i] == Get && ws[i].cell.stored.Some? && forall j | i < j <= n :: ws[j].cell.pc != Idle
  }

  /** All through a call the copy is of what the call read, whatever users do meanwhile. */
  lemma {:induction false} CallKeepsRead(
      noCross: bool, k: NamespacedName, ws: seq<World>, ls: seq<Label>, i: nat, n: nat)
    requires IsRun(noCross, k, ws, ls) && i < n < |ws| && SameCall(ws, ls, i, n)
    ensures SameRead(ws[i].cell.stored.value, ws[n].cell.mem)
    decreases n
  {
    hide Step, Allowed, OnGet;
    assert ls[n - 1] == ls[n - 1];
    if n == i + 1 {
      GetReads(noCross, k, ws[i].cell);
      assert ws[i].cell.pc == Idle by { GetIsAtRest(k, ws[i]); }
      GetStep(noCross, k, ws[i]);
    } else {
      CallKeepsRead(noCross, k, ws, ls, i, n - 1);
      StepKeepsRead(noCross, k, ws[n - 1], ls[n - 1]);
    }
  }

  lemma GetIsAtRest(k: NamespacedName, w: World)
    requires Allowed(k, w, Get)
    ensures w.cell.pc == Idle
  {
  }

  /**
   A call whose final patch is persisted reports about what it read, even if the
   object has changed since: if it ends Ready it has observed exactly the
   generation it read, and otherwise none that was not observed before; it has
   handled exactly the request it read, and without one none at all. What users
   wrote meanwhile stays as they wrote it.
   */
  lemma CallReportsWhatItRead(
      noCross: bool, k: NamespacedName, ws: seq<World>, ls: seq<Label>, i: nat, n: nat, r: PatchReply)
    requires IsRun(noCross, k, ws, ls) && i < n < |ls| && SameCall(ws, ls, i, n)
    requires ws[n].cell.pc == Finish && ls[n] == Patch(r) && Persists(r) && ws[n + 1].cell.stored.Some?
    ensures
      var read, now := ws[i].cell.stored.value, ws[n + 1].cell.stored.value;
      && now.status.observedGeneration ==
         (if IsReady(now.status) then read.generation else read.status.observedGeneration)
      && now.status.lastHandled == (if read.requested.Some? then read.requested.value else read.status.lastHandled)
      && ws[n].cell.stored.Some?
      && var last := ws[n].cell.stored.value;
         && now.spec == last.spec && now.generation == last.generation
         && now.requested == last.requested && now.deleting == last.deleting
  {
    hide Step, Allowed;
    CallKeepsRead(noCross, k, ws, ls, i, n);
    assert ls[n] == ls[n];
    StoredAtEnd(noCross, k, ws[n], r);
  }

  lemma StoredAtEnd(noCross: bool, k: NamespacedName, w: World, r: PatchReply)
    requires w.cell.pc == Finish && Allowed(k, w, Patch(r)) && Persists(r)
    requires Step(noCross, k, w, Patch(r)).cell.stored.Some?
    ensures w.cell.stored.Some?
    ensures Step(noCross, k, w, Patch(r)).cell.stored.value ==
            w.cell.stored.value.(
              finalizer := FinalizeStatus(w.cell.mem).finalizer, status := FinalizeStatus(w.cell.mem).status)
  {
    hide OnPatch, FinalizeStatus;
  }

  // ---------- failure reporting ----------

  /** The run's own status patches, before anything was built or applied. */
  predicate StatusPatch(pc: Pc) {
    pc == PatchProgressing || pc == PatchAttempted || pc == PatchDrift
  }

  /** What the status says when the run's changes are finally patched. */
  function Reported(c: Cell): Status {
    FinalizeStatus(c.mem).status
  }

  predicate ReportsFailure(s: Status) {
    && s.ready.Some? && s.ready.value.status == False
    && s.reconciling.Some? && s.reconciling.value.reason == ProgressingWithRetry
  }

  predicate ReportsSuccess(s: Status, revision: string) {
    && IsReady(s) && s.reconciling.None? && s.lastApplied == s.lastAttempted == revision
  }

  /**
   How a reconciliation may end: it succeeds, and says so, with the next
   interval scheduled; or a retry is scheduled and the status reports the
   failure, except that after an error in one of the run's own status patches
   Ready is left Unknown.
   */
  predicate ProperEnd(c: Cell, d: Cell) {
    if IsReady(d.mem.status) then
      d.outcome == NextInterval && ReportsSuccess(Reported(d), c.artifact.revision)
    else
      && d.outcome == RetryLater
      && (ReportsFailure(Reported(d)) <==> !StatusPatch(c.pc))
      && (StatusPatch(c.pc) ==> Reported(d).ready.Some? && Reported(d).ready.value.status == Unknown)
      && d.mem.status.lastApplied == c.mem.status.lastApplied
  }

  /** What the final patch says, as a function of the conditions before it. */
  lemma ReportedFacts(c: Cell)
    ensures Reported(c).ready == c.mem.status.ready
    ensures Reported(c).lastApplied == c.mem.status.lastApplied
    ensures Reported(c).lastAttempted == c.mem.status.lastAttempted
    ensures Reported(c).inventory == c.mem.status.inventory
    ensures IsReady(c.mem.status) ==> Reported(c).reconciling.None?
    ensures !IsReady(c.mem.status) ==> (Reported(c).reconciling.Some? <==> c.mem.status.reconciling.Some?)
    ensures c.mem.status.ready.Some? && c.mem.status.ready.value.status == False && c.mem.status.reconciling.Some? ==>
              Reported(c).reconciling.value.reason == ProgressingWithRetry
  {
  }

  lemma EndOfFailedPatch(c: Cell, r: PatchReply)
    requires Honest(c) && Reconciling(c.pc) && IsPatch(c.pc) && r != Patched
    ensures ProperEnd(c, OnPatch(c, r))
    ensures OnPatch(c, r).mem.status.inventory == c.mem.status.inventory
  {
    hide Reported, HealthyOrUnchecked, HonestStatus;
    ReportedFacts(OnPatch(c, r));
  }

  lemma EndOfPatch(c: Cell, r: PatchReply)
    requires Honest(c) && Reconciling(c.pc) && IsPatch(c.pc) && OnPatch(c, r).pc == Finish
    ensures ProperEnd(c, OnPatch(c, r))
    ensures OnPatch(c, r).mem.status.inventory == c.mem.status.inventory
  {
    if r != Patched {
      EndOfFailedPatch(c, r);
    } else {
      assert c.pc == PatchHealthy && OnPatch(c, r) == Succeed(Store(c));
      EndOfSuccess(c);
    }
    hide ProperEnd, Honest, OnPatch, Succeed, Store;
  }

  lemma EndOfSuccess(c: Cell)
    requires Honest(c) && c.pc == PatchHealthy
    ensures ProperEnd(c, Succeed(Store(c)))
    ensures Succeed(Store(c)).mem.status.inventory == c.mem.status.inventory
  {
    hide Reported, HealthyOrUnchecked, HonestStatus;
    ReportedFacts(Succeed(Store(c)));
  }

  lemma EndOfApply(k: NamespacedName, w: World, r: ApplyReply)
    requires Honest(w.cell) && w.cell.pc == ApplyObjects && OnApply(k, w, r).cell.pc == Finish
    ensures ProperEnd(w.cell, OnApply(k, w, r).cell)
    ensures r.ApplyFailed? ==> OnApply(k, w, r).cell.mem.status.inventory == w.cell.mem.status.inventory
  {
    hide MetaSet, Desired, Refs, ApplyTo, Owned, Restrict, AfterApply;
    if r.Applied? {
      ApplyEnd(w.cell, Refs(r.entries));
    }
  }

  lemma EndOfWork(noCross: bool, k: NamespacedName, w: World, l: Label)
    requires Allowed(k, w, l) && Honest(w.cell) && Reconciling(w.cell.pc)
    requires l.Client? || l.Delete? || l.Wait?
    requires Step(noCross, k, w, l).cell.pc == Finish
    ensures ProperEnd(w.cell, Step(noCross, k, w, l).cell)
    ensures Step(noCross, k, w, l).cell.mem.status.inventory == w.cell.mem.status.inventory
  {
    hide Build, DeleteFrom, Kept, Owned, CheckHealth, OnGet, OnFinish, OnPatch, OnDeleteAll, OnApply;
    CheckHealthEnd(w.cell);
    CheckHealthFacts(w.cell);
    ReportedFacts(Step(noCross, k, w, l).cell);
    hide Reported, HealthyOrUnchecked, HonestStatus;
  }

  /**
   Every way out of `reconcile` is a proper end, and leaves the inventory as
   persisted unless everything was applied.
   */
  lemma EndOfReconcile(noCross: bool, k: NamespacedName, ws: seq<World>, ls: seq<Label>)
    requires IsRunFromStart(noCross, k, ws, ls) && ls != []
    requires Reconciling(ws[|ls| - 1].cell.pc) && ws[|ls|].cell.pc == Finish
    ensures
      var c, d, l := ws[|ls| - 1].cell, ws[|ls|].cell, ls[|ls| - 1];
      && ProperEnd(c, d)
      && (BeforeApply(c.pc) && !(l.Apply? && l.apply.Applied?) ==>
            c.stored.Some? && d.mem.status.inventory == c.stored.value.status.inventory)
  {
    hide ProperEnd, OnGet, OnSource, OnPatch, OnClient, OnApply, OnDeleteStale, OnWait, OnFinish, Reports, Owned;
    hide AllParse, MetaSet, Kept, DeleteFrom;
    hide Initial, Family, Build, Ids, Shape, OnUser;
    RunInit(noCross, k, ws, ls);
    ReachableIsGood(noCross, k, ws[..|ls|], ls[..|ls| - 1]);
    var e, l := ws[|ls| - 1], ls[|ls| - 1];
    if l.Apply? {
      EndOfApply(k, e, l.apply);
    } else if l.Patch? {
      EndOfPatch(e.cell, l.patch);
    } else if l.Client? || l.Delete? || l.Wait? {
      EndOfWork(noCross, k, e, l);
    }
  }

  /** The copy on which looking for the source failed. */
  function SearchedFor(c: Cell): LanguageModel {
    if c.pc == Idle && c.stored.Some? then c.stored.value else c.mem
  }

  /** The source cannot be had: refused, of an unknown kind, missing, failing, or without an artifact. */
  predicate NoSource(noCross: bool, k: NamespacedName, w: World, l: Label) {
    || (l.SourceIs? && !l.source.HasArtifact?)
    || (l.Get? && w.cell.stored.Some?
        && var lm := w.cell.stored.value;
        lm.finalizer && !lm.deleting && !lm.spec.suspend && !Resolve(noCross, k, lm.spec.sourceRef).Lookup?)
  }

  lemma EndOfSearch(noCross: bool, k: NamespacedName, w: World, l: Label)
    requires Allowed(k, w, l) && NoSource(noCross, k, w, l)
    ensures
      var copy, d := SearchedFor(w.cell), Step(noCross, k, w, l).cell;
      && d.pc == Finish && d.outcome in {RetryLater, RequeueWithError}
      && d.mem.status.ready.Some?
      && d.mem.status == copy.status.(ready := d.mem.status.ready) && d.mem.status.ready.value.status == False
  {
    hide Resolve, OnPatch, OnFinish, OnApply, OnClient, OnDeleteStale, OnDeleteAll, OnUser;
  }

  /**
   A call that finds no source makes Ready False and is retried, but it reports
   the retry in the Reconciling condition only when that condition was there
   already. So a LanguageModel that was Ready and loses its source is left
   without one.
   */
  lemma EndWithoutSource(noCross: bool, k: NamespacedName, w: World, l: Label)
    requires Allowed(k, w, l) && NoSource(noCross, k, w, l)
    ensures
      var copy, d := SearchedFor(w.cell), Step(noCross, k, w, l).cell;
      && d.pc == Finish && d.outcome in {RetryLater, RequeueWithError}
      && Reported(d).ready.Some? && Reported(d).ready.value.status == False
      && (ReportsFailure(Reported(d)) <==> copy.status.reconciling.Some?)
      && (HonestStatus(copy.status) && IsReady(copy.status) ==> Reported(d).reconciling.None?)
      && Reported(d).lastApplied == copy.status.lastApplied
      && Reported(d).lastAttempted == copy.status.lastAttempted
      && Reported(d).inventory == copy.status.inventory
  {
    EndOfSearch(noCross, k, w, l);
    ReportedFacts(Step(noCross, k, w, l).cell);
    hide Step, Allowed, NoSource, SearchedFor, Reported;
  }

  lemma CheckHealthEnd(c: Cell)
    ensures CheckHealth(c).pc == Finish ==>
              && CheckHealth(c).outcome == NextInterval && IsReady(CheckHealth(c).mem.status)
              && CheckHealth(c).mem.status.lastApplied == c.artifact.revision
              && CheckHealth(c).mem.status.lastAttempted == c.mem.status.lastAttempted
    ensures CheckHealth(c).pc == Finish || CheckHealth(c).pc == PatchChecking
  {
  }

  lemma ApplyEnd(c: Cell, es: seq<ResourceRef>)
    requires c.mem.status.reconciling.Some?
    requires c.mem.status.lastAttempted == c.artifact.revision
    ensures
      var d := AfterApply(c, es);
      d.pc == Finish ==>
        if IsReady(d.mem.status) then
          d.outcome == NextInterval && d.mem.status.lastApplied == d.mem.status.lastAttempted == c.artifact.revision
        else
          d.outcome == RetryLater && ReportsFailure(Reported(d)) && d.mem.status.lastApplied == c.mem.status.lastApplied
  {
    hide AllParse, MetaSet, CheckHealth;
    CheckHealthEnd(Record(c, es));
  }
}
