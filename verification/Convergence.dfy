/**
 When calls stop failing and nobody interferes, the controller gets where it
 is going, in a bounded number of steps, and then stays there.
 */
module Convergence {
  import opened Wrappers
  import opened ObjectIds
  import opened ChangeSets
  import opened Inventory
  import opened Api
  import opened Sources
  import opened Manifests
  import opened Cluster
  import opened Machine
  import opened Invariants
  import opened Safety

  /** A step of the controller in which the call succeeds; the source has the artifact `a`. */
  predicate FaultFree(l: Label, a: Artifact) {
    match l
    case Get => true
    case SourceIs(_, _, r) => r == HasArtifact(a)
    case Patch(r) => r == Patched
    case Client(ok) => ok
    case Apply(r) => r.Applied?
    case Delete(r) => r == DeletedAll
    case Wait(_, healthy) => healthy
    case _ => false
  }

  /** The object is neither being deleted nor suspended, its source resolves, and its spec builds. */
  predicate Able(noCross: bool, k: NamespacedName, c: Cell, a: Artifact) {
    && c.stored.Some?
    && var lm := c.stored.value;
    && !lm.deleting && !lm.spec.suspend
    && Resolve(noCross, k, lm.spec.sourceRef).Lookup?
    && Build(k, lm.spec, a).Success?
  }

  /** The objects the current spec and the artifact ask for. */
  function Wanted(k: NamespacedName, c: Cell, a: Artifact): seq<Object>
    requires c.stored.Some? && Build(k, c.stored.value.spec, a).Success?
  {
    Build(k, c.stored.value.spec, a).value
  }

  predicate Achieved(s: Status, a: Artifact) {
    && IsReady(s)
    && s.lastApplied == s.lastAttempted == a.revision
    && s.healthy.Some? && s.healthy.value.status == True
  }

  /** Everything asked for has been applied, recorded, and reported. */
  predicate Converged(k: NamespacedName, w: World, a: Artifact) {
    var c := w.cell;
    && c.pc == Idle && c.stored.Some? && c.stored.value.finalizer
    && Build(k, c.stored.value.spec, a).Success?
    && var s := c.stored.value.status;
    && Achieved(s, a) && s.reconciling.None?
    && s.observedGeneration == c.stored.value.generation
    && Recorded(c.stored.value) == Ids(Wanted(k, c, a))
    && AllAsBuilt(k, w.live, Wanted(k, c, a))
  }

  predicate AfterApplied(pc: Pc) {
    pc == DeleteStale || pc == PatchChecking || pc == WaitHealthy || pc == PatchHealthy || pc == Finish
  }

  /** A run in progress that works on the current spec and artifact, and has succeeded so far. */
  predicate OnTarget(k: NamespacedName, w: World, a: Artifact) {
    var c := w.cell;
    && (c.pc == GetSource || Reconciling(c.pc) || c.pc == Finish)
    && c.stored.Some? && c.stored.value.finalizer && c.mem.finalizer
    && c.mem.spec == c.stored.value.spec && c.mem.generation == c.stored.value.generation
    && (c.pc != GetSource ==> c.artifact == a)
    && (AfterApplied(c.pc) ==>
          && Build(k, c.mem.spec, a) == Success(c.objs)
          && Recorded(c.mem) == Ids(c.objs) && Entries(c.mem.status) != []
          && AllAsBuilt(k, w.live, c.objs))
    && (c.pc == PatchHealthy ==> c.mem.status.healthy.Some? && c.mem.status.healthy.value.status == True)
    && (c.pc == Finish ==> Achieved(c.mem.status, a))
  }

  function Rank(pc: Pc): nat {
    match pc
    case Idle => 0
    case Finish => 1
    case PatchHealthy => 2
    case WaitHealthy => 3
    case PatchChecking => 4
    case DeleteStale => 5
    case ApplyObjects => 6
    case PatchDrift => 7
    case GetClient => 8
    case PatchAttempted => 9
    case PatchProgressing => 10
    case GetSource => 11
    case _ => 4
  }

  /**
   How far convergence is. A twelfth of it is how many more Reconcile calls have
   to start: none once the run in progress is on target, two when the finalizer
   is still missing.
   */
  function Distance(k: NamespacedName, w: World, a: Artifact): nat {
    var c := w.cell;
    if c.pc == Idle then
      if Converged(k, w, a) then 0
      else if c.stored.Some? && c.stored.value.finalizer then 12
      else 24
    else if OnTarget(k, w, a) then Rank(c.pc)
    else 12 + Rank(c.pc)
  }

  // ---------- one step ----------

  lemma FaultFreeKeepsAble(noCross: bool, k: NamespacedName, w: World, l: Label, a: Artifact)
    requires Allowed(k, w, l) && FaultFree(l, a) && Shape(w.cell) && Able(noCross, k, w.cell, a)
    ensures Able(noCross, k, Step(noCross, k, w, l).cell, a)
    ensures Step(noCross, k, w, l).cell.stored.value.spec == w.cell.stored.value.spec
    ensures Step(noCross, k, w, l).cell.stored.value.generation == w.cell.stored.value.generation
  {
    if l.Patch? {
      PatchStep(noCross, k, w, Patched);
      PatchStored(w.cell, if w.cell.pc == Finish then FinalizeStatus(w.cell.mem) else w.cell.mem, l.patch);
    } else {
      OtherKeepsStored(noCross, k, w, l);
    }
    hide Build, Resolve, Step, OnPatch, OnFinish, FinalizeStatus, RunShape, StoredShape;
  }

  /** A run moves on to a later call, or ends. */
  lemma RankDecreases(noCross: bool, k: NamespacedName, w: World, l: Label, a: Artifact)
    requires Allowed(k, w, l) && FaultFree(l, a) && Shape(w.cell) && Able(noCross, k, w.cell, a)
    requires w.cell.pc != Idle
    ensures Rank(Step(noCross, k, w, l).cell.pc) < Rank(w.cell.pc)
    ensures Step(noCross, k, w, l).cell.pc == Idle ==> Present(Step(noCross, k, w, l).cell)
  {
    hide Build, Resolve, MetaSet, AllParse, Refs, Reports, Desired, ApplyTo, DeleteFrom, Kept, Owned, Restrict;
    hide CheckHealth, AfterApply;
    hide OnGet, OnImpersonation, OnFinalClient, OnUser, FinalizeStatus;
    if l.Apply? {
      AfterApplyFacts(w.cell, Refs(l.apply.entries));
      hide OnPatch, OnFinish, OnDeleteStale, OnDeleteAll;
    } else if l.Delete? {
      CheckHealthFacts(w.cell);
      CheckHealthEnd(w.cell);
      hide OnPatch, OnFinish, OnApply;
    } else {
      FinalizeKeepsInventory(w.cell.mem);
      hide OnApply, OnDeleteStale, OnDeleteAll;
    }
  }

  lemma GetIsOnTarget(noCross: bool, k: NamespacedName, w: World, a: Artifact)
    requires w.cell.pc == Idle && Shape(w.cell) && Able(noCross, k, w.cell, a)
    ensures
      var d := OnGet(noCross, k, w.cell);
      if w.cell.stored.value.finalizer then d.pc == GetSource && OnTarget(k, World(d, w.live), a)
      else d.pc == Finish
  {
    hide Build, Resolve, Owned, MetaSet, AllAsBuilt;
  }

  lemma PatchStaysOnTarget(k: NamespacedName, w: World, a: Artifact)
    requires IsPatch(w.cell.pc) && w.cell.pc != Finish
    requires Honest(w.cell) && OnTarget(k, w, a)
    ensures OnTarget(k, World(OnPatch(w.cell, Patched), w.live), a)
  {
    hide Build, Owned, MetaSet, AllAsBuilt, Ids;
  }

  lemma FinishConverges(noCross: bool, k: NamespacedName, w: World, a: Artifact)
    requires w.cell.pc == Finish && Able(noCross, k, w.cell, a) && OnTarget(k, w, a)
    ensures Converged(k, World(OnFinish(w.cell, Patched), w.live), a)
  {
    hide Build, Owned, MetaSet, AllAsBuilt, Ids, Resolve;
  }

  lemma ApplyStaysOnTarget(k: NamespacedName, w: World, a: Artifact, entries: seq<ChangeSetEntry>)
    requires ValidName(k) && Allowed(k, w, Apply(Applied(entries)))
    requires Inventoried(k, w.cell) && OnTarget(k, w, a)
    ensures OnTarget(k, OnApply(k, w, Applied(entries)), a)
  {
    hide Build, AllParse, MetaSet, Refs, Reports, ApplyTo, Desired, Owned, Family, Ids, AfterApply, Restrict;
    hide AsBuilt, DistinctIds;
    BuildFacts(k, w.cell.mem.spec, w.cell.artifact);
    AppliedIsLive(k, w.live, w.cell.objs);
    AppliedInventory(k, w, entries);
    AfterApplyInventory(w.cell, Refs(entries));
    AfterApplyFacts(w.cell, Refs(entries));
  }

  lemma DeleteLeavesBuilt(k: NamespacedName, live: LiveObjects, targets: set<ObjMetadata>, objs: seq<Object>)
    requires AllAsBuilt(k, live, objs) && forall m :: m in targets ==> m !in Ids(objs)
    ensures AllAsBuilt(k, DeleteFrom(k, live, targets), objs)
  {
    forall o | o in objs ensures AsBuilt(k, DeleteFrom(k, live, targets), o) {
      assert o.meta in Ids(objs);
      assert o.meta !in targets;
      assert AsBuilt(k, live, o);
    }
  }

  lemma PruningStaysOnTarget(k: NamespacedName, w: World, a: Artifact)
    requires w.cell.pc == DeleteStale && Inventoried(k, w.cell) && OnTarget(k, w, a)
    ensures OnTarget(k, OnDeleteStale(k, w, DeletedAll), a)
  {
    DeleteLeavesBuilt(k, w.live, w.cell.stale, w.cell.objs);
    CheckHealthFacts(w.cell);
    hide Build, MetaSet, AllParse, DeleteFrom, Ids, AllAsBuilt, Family, CheckHealth;
  }

  lemma WorkStaysOnTarget(noCross: bool, k: NamespacedName, w: World, l: Label, a: Artifact)
    requires Allowed(k, w, l) && FaultFree(l, a) && Able(noCross, k, w.cell, a) && OnTarget(k, w, a)
    requires l.SourceIs? || l.Client? || l.Wait?
    ensures OnTarget(k, Step(noCross, k, w, l), a)
  {
    hide Build, Resolve, MetaSet, Ids, AllAsBuilt;
    hide OnGet, OnPatch, OnFinish, OnApply, OnImpersonation, OnFinalClient, OnDeleteAll, OnDeleteStale, OnUser;
  }

  lemma OnTargetPrunes(k: NamespacedName, w: World, l: Label, a: Artifact)
    requires l.Delete? && Allowed(k, w, l) && OnTarget(k, w, a)
    ensures w.cell.pc == DeleteStale
  {
  }

  /** Fault-free steps of a run on target stay on target, up to convergence. */
  lemma StaysOnTarget(noCross: bool, k: NamespacedName, w: World, l: Label, a: Artifact)
    requires ValidName(k) && Allowed(k, w, l) && FaultFree(l, a) && Able(noCross, k, w.cell, a)
    requires Shape(w.cell) && Honest(w.cell) && Inventoried(k, w.cell) && w.cell.pc != Idle && OnTarget(k, w, a)
    ensures
      var d := Step(noCross, k, w, l);
      if d.cell.pc == Idle then Converged(k, d, a) else OnTarget(k, d, a)
  {
    hide OnGet, OnSource, OnPatch, OnClient, OnApply, OnDeleteStale, OnWait, OnFinish, OnUser;
    hide OnImpersonation, OnFinalClient, OnDeleteAll, Reports, Owned, Shape, Honest, Inventoried, Converged;
    hide Build, Resolve, Ids, MetaSet, AllAsBuilt, Able;
    RankDecreases(noCross, k, w, l, a);
    if l.Patch? {
      if w.cell.pc == Finish {
        FinishConverges(noCross, k, w, a);
        assert OnFinish(w.cell, Patched).pc == Idle by { FinishIsIdle(w.cell); }
      } else {
        PatchStaysOnTarget(k, w, a);
      }
    } else if l.Apply? {
      ApplyStaysOnTarget(k, w, a, l.apply.entries);
    } else if l.Delete? {
      OnTargetPrunes(k, w, l, a);
      DeleteStep(noCross, k, w, DeletedAll);
      PruningStaysOnTarget(k, w, a);
    } else {
      WorkStaysOnTarget(noCross, k, w, l, a);
    }
  }

  lemma FinishIsIdle(c: Cell)
    ensures OnFinish(c, Patched).pc == Idle
  {
  }

  /**
   Every fault-free step before convergence brings it closer; and starting a
   Reconcile call uses up one of the calls that the distance allows for.
   */
  lemma DistanceDecreases(noCross: bool, k: NamespacedName, w: World, l: Label, a: Artifact)
    requires ValidName(k) && Allowed(k, w, l) && FaultFree(l, a) && Good(k, w) && Able(noCross, k, w.cell, a)
    requires Distance(k, w, a) > 0
    ensures Distance(k, Step(noCross, k, w, l), a) < Distance(k, w, a)
    ensures Distance(k, Step(noCross, k, w, l), a) / 12 + (if l.Get? then 1 else 0) <= Distance(k, w, a) / 12
  {
    hide OnGet, OnSource, OnPatch, OnClient, OnApply, OnDeleteStale, OnWait, OnFinish, OnUser;
    hide OnImpersonation, OnFinalClient, OnDeleteAll, Reports, Owned, Shape, Honest, Inventoried, Converged, OnTarget;
    hide Build, Resolve, Ids, MetaSet;
    if w.cell.pc == Idle {
      assert l.Get?;
      GetIsOnTarget(noCross, k, w, a);
      assert Distance(k, w, a) == if w.cell.stored.value.finalizer then 12 else 24;
    } else {
      RankDecreases(noCross, k, w, l, a);
      assert !l.Get?;
      if OnTarget(k, w, a) {
        StaysOnTarget(noCross, k, w, l, a);
      }
    }
  }

  // ---------- whole runs ----------

  predicate FaultFreeRun(ls: seq<Label>, a: Artifact) {
    forall i {:trigger ls[i]} :: 0 <= i < |ls| ==> FaultFree(ls[i], a)
  }

  /** How many Reconcile calls a run starts. */
  function Calls(ls: seq<Label>): nat {
    if ls == [] then 0 else Calls(ls[..|ls| - 1]) + if ls[|ls| - 1].Get? then 1 else 0
  }

  /** As long as convergence has not been reached, distance and remaining calls go down along the run. */
  lemma {:induction false} DistanceAlongRun(
      noCross: bool, k: NamespacedName, ws: seq<World>, ls: seq<Label>, a: Artifact)
    requires ValidName(k) && IsRun(noCross, k, ws, ls) && FaultFreeRun(ls, a)
    requires Good(k, ws[0]) && Able(noCross, k, ws[0].cell, a)
    requires forall i {:trigger ws[i]} :: 0 <= i < |ls| ==> Distance(k, ws[i], a) > 0
    ensures Good(k, ws[|ls|]) && Able(noCross, k, ws[|ls|].cell, a)
    ensures Distance(k, ws[|ls|], a) + |ls| <= Distance(k, ws[0], a)
    ensures Distance(k, ws[|ls|], a) / 12 + Calls(ls) <= Distance(k, ws[0], a) / 12
    decreases |ls|
  {
    hide Step, Allowed, Good, Able, Distance, FaultFree;
    if ls != [] {
      var n := |ls| - 1;
      RunInit(noCross, k, ws, ls);
      assert ls[n] == ls[n];
      assert forall i {:trigger ls[..n][i]} :: 0 <= i < n ==> ls[..n][i] == ls[i];
      DistanceAlongRun(noCross, k, ws[..n + 1], ls[..n], a);
      GoodShape(k, ws[n]);
      FaultFreeKeepsAble(noCross, k, ws[n], ls[n], a);
      DistanceDecreases(noCross, k, ws[n], ls[n], a);
      StepKeepsGood(noCross, k, ws[n], ls[n]);
    }
  }

  lemma GoodShape(k: NamespacedName, w: World)
    requires Good(k, w)
    ensures Shape(w.cell)
  {
  }

  lemma ZeroIsConverged(k: NamespacedName, w: World, a: Artifact)
    ensures Distance(k, w, a) == 0 <==> Converged(k, w, a)
    ensures Distance(k, w, a) <= 24
  {
    hide OnTarget;
  }

  /** The first moment of a run at distance zero, if there is one. */
  lemma {:induction false} FirstConverged(k: NamespacedName, ws: seq<World>, a: Artifact, m: nat) returns (n: nat)
    requires m < |ws|
    ensures n <= m
    ensures forall i {:trigger ws[i]} :: 0 <= i < n ==> Distance(k, ws[i], a) > 0
    ensures n < m ==> Converged(k, ws[n], a)
    decreases m
  {
    hide Distance, Converged;
    n := 0;
    while n < m && Distance(k, ws[n], a) > 0
      invariant n <= m
      invariant forall i {:trigger ws[i]} :: 0 <= i < n ==> Distance(k, ws[i], a) > 0
    {
      n := n + 1;
    }
    ZeroIsConverged(k, ws[n], a);
  }

  /**
   Convergence: from any reachable state in which the object can be reconciled,
   every run in which nothing fails converges within its first 24 steps, and
   starts at most two Reconcile calls until then.
   */
  lemma Converges(noCross: bool, k: NamespacedName, ws: seq<World>, ls: seq<Label>, a: Artifact) returns (n: nat)
    requires ValidName(k) && IsRun(noCross, k, ws, ls) && FaultFreeRun(ls, a)
    requires Good(k, ws[0]) && Able(noCross, k, ws[0].cell, a)
    requires |ls| >= 24
    ensures n <= 24 && Converged(k, ws[n], a)
    ensures Calls(ls[..n]) <= 2
  {
    hide Step, Allowed, Good, Able, Distance, FaultFree, Converged;
    n := FirstConverged(k, ws, a, 24);
    RunPrefix(noCross, k, ws, ls, n);
    assert forall i {:trigger ls[..n][i]} :: 0 <= i < n ==> ls[..n][i] == ls[i];
    DistanceAlongRun(noCross, k, ws[..n + 1], ls[..n], a);
    ZeroIsConverged(k, ws[0], a);
    ZeroIsConverged(k, ws[n], a);
  }

  /** Fault-free runs can always go on: every call has a successful reply. */
  lemma NextFaultFree(noCross: bool, k: NamespacedName, w: World, a: Artifact) returns (l: Label)
    requires Shape(w.cell) && Able(noCross, k, w.cell, a)
    ensures Allowed(k, w, l) && FaultFree(l, a)
  {
    hide Build, Resolve, EntriesOf;
    match w.cell.pc
    case Idle => l := Get;
    case GetSource =>
      var found := Resolve(false, k, w.cell.mem.spec.sourceRef);
      LookupByKind(false, k, w.cell.mem.spec.sourceRef);
      l := SourceIs(found.kind, found.source, HasArtifact(a));
    case GetClient => l := Client(true);
    case ApplyObjects => l := Apply(Applied(EntriesOf(k, w.live, w.cell.objs)));
    case DeleteStale => l := Delete(DeletedAll);
    case WaitHealthy => l := Wait(Awaited(k, w.cell.mem), true);
    case _ => l := Patch(Patched);
  }

  // ---------- staying there ----------

  /** What is live and recorded is what is wanted, and revisions and generation are up to date. */
  predicate UpToDate(k: NamespacedName, w: World, a: Artifact)
    requires w.cell.stored.Some? && Build(k, w.cell.stored.value.spec, a).Success?
  {
    var lm := w.cell.stored.value;
    && lm.finalizer
    && Recorded(lm) == Ids(Wanted(k, w.cell, a))
    && AllAsBuilt(k, w.live, Wanted(k, w.cell, a))
    && lm.status.lastApplied == lm.status.lastAttempted == a.revision
    && lm.status.observedGeneration == lm.generation
  }

  /** So is the copy of the run in progress, and nothing is stale. */
  predicate RunUpToDate(k: NamespacedName, c: Cell, a: Artifact)
    requires c.stored.Some? && Build(k, c.stored.value.spec, a).Success?
  {
    && Recorded(c.mem) == Ids(Wanted(k, c, a))
    && c.mem.status.lastApplied == c.mem.status.lastAttempted == a.revision
    && c.mem.status.observedGeneration == c.mem.generation
    && (c.pc == PatchDrift || c.pc == ApplyObjects ==> c.objs == Wanted(k, c, a))
    && (c.pc == DeleteStale ==> c.stale == {})
  }

  /** A state of the repeated reconciliation of something that has converged. */
  predicate Steady(noCross: bool, k: NamespacedName, w: World, a: Artifact) {
    && Able(noCross, k, w.cell, a)
    && UpToDate(k, w, a)
    && (w.cell.pc == Idle ==> Converged(k, w, a))
    && (w.cell.pc != Idle ==> OnTarget(k, w, a) && RunUpToDate(k, w.cell, a))
  }

  lemma ConvergedIsSteady(noCross: bool, k: NamespacedName, w: World, a: Artifact)
    requires Converged(k, w, a) && Able(noCross, k, w.cell, a)
    ensures Steady(noCross, k, w, a)
  {
    hide Build, MetaSet, Ids, AllAsBuilt, Resolve;
  }

  /** While object and live objects stay as they are, only the run has to be looked at. */
  lemma SteadyRunStep(noCross: bool, k: NamespacedName, w: World, d: World, a: Artifact)
    requires Steady(noCross, k, w, a)
    requires d.cell.stored == w.cell.stored && d.live == w.live && d.cell.pc != Idle
    requires OnTarget(k, d, a) && RunUpToDate(k, d.cell, a)
    ensures Steady(noCross, k, d, a)
  {
    hide Build, Resolve, MetaSet, AllAsBuilt, Ids, OnTarget, RunUpToDate, Converged;
  }

  lemma SteadyInfo(noCross: bool, k: NamespacedName, w: World, a: Artifact)
    requires Steady(noCross, k, w, a)
    ensures Able(noCross, k, w.cell, a)
    ensures w.cell.pc != Idle ==> OnTarget(k, w, a) && RunUpToDate(k, w.cell, a)
  {
    hide Build, Resolve, MetaSet, AllAsBuilt, Ids, OnTarget, RunUpToDate, Converged;
  }

  /** Applying what is already as wanted changes nothing. */
  lemma ApplyChangesNothing(k: NamespacedName, live: LiveObjects, objs: seq<Object>)
    requires DistinctIds(objs) && AllAsBuilt(k, live, objs)
    ensures ApplyTo(k, live, Desired(objs)) == live
  {
    DesiredLookup(objs);
    forall m | m in Desired(objs) && !Skipped(live, m)
      ensures m in live && Configure(k, live, m, Desired(objs)[m]) == live[m]
    {
      var o :| o in objs && o.meta == m;
      assert AsBuilt(k, live, o);
    }
  }

  /** Applying what is already as wanted reports nothing as changed. */
  lemma ApplyReportsNoDrift(k: NamespacedName, live: LiveObjects, objs: seq<Object>, entries: seq<ChangeSetEntry>)
    requires AllAsBuilt(k, live, objs) && Reports(k, live, objs, entries)
    ensures !Drifted(entries)
  {
    ReportedIds(k, live, objs, entries);
    hide Reports;
    forall e | e in entries ensures !HasChanged(e.action) {
      var o :| o in objs && e == EntryOf(k, live, o);
      assert AsBuilt(k, live, o);
    }
  }

  lemma RunAfterApply(k: NamespacedName, w: World, a: Artifact, entries: seq<ChangeSetEntry>)
    requires ValidName(k) && Allowed(k, w, Apply(Applied(entries)))
    requires Inventoried(k, w.cell) && OnTarget(k, w, a)
    requires Build(k, w.cell.stored.value.spec, a).Success? && RunUpToDate(k, w.cell, a)
    ensures RunUpToDate(k, AfterApply(w.cell, Refs(entries)), a)
    ensures AfterApply(w.cell, Refs(entries)).stored == w.cell.stored && AfterApply(w.cell, Refs(entries)).pc != Idle
  {
    hide Build, AllParse, MetaSet, Refs, Reports, Family, Ids, AfterApply, AllAsBuilt;
    AppliedInventory(k, w, entries);
    AfterApplyInventory(w.cell, Refs(entries));
    AfterApplyFacts(w.cell, Refs(entries));
    AfterApplyRevisions(w.cell, Refs(entries));
  }

  lemma SteadyApply(noCross: bool, k: NamespacedName, w: World, a: Artifact, entries: seq<ChangeSetEntry>)
    requires ValidName(k) && Allowed(k, w, Apply(Applied(entries)))
    requires Inventoried(k, w.cell) && Steady(noCross, k, w, a)
    ensures Steady(noCross, k, OnApply(k, w, Applied(entries)), a)
    ensures OnApply(k, w, Applied(entries)).live == w.live && !Drifted(entries)
  {
    SteadyInfo(noCross, k, w, a);
    ApplyStaysOnTarget(k, w, a, entries);
    RunAfterApply(k, w, a, entries);
    ApplyingSteadily(noCross, k, w, a, entries);
    SteadyRunStep(noCross, k, w, OnApply(k, w, Applied(entries)), a);
    hide *;
  }

  lemma ApplyingSteadily(noCross: bool, k: NamespacedName, w: World, a: Artifact, entries: seq<ChangeSetEntry>)
    requires w.cell.pc == ApplyObjects && Steady(noCross, k, w, a) && Reports(k, w.live, w.cell.objs, entries)
    ensures OnApply(k, w, Applied(entries)) == World(AfterApply(w.cell, Refs(entries)), w.live)
    ensures !Drifted(entries)
  {
    hide Refs, Reports, ApplyTo, Desired, Ids, AfterApply, DistinctIds, Drifted, AllAsBuilt, Resolve, OnTarget, Build;
    BuildFacts(k, w.cell.stored.value.spec, a);
    ApplyChangesNothing(k, w.live, w.cell.objs);
    ApplyReportsNoDrift(k, w.live, w.cell.objs, entries);
  }

  lemma AfterApplyRevisions(c: Cell, es: seq<ResourceRef>)
    requires AllParse(Entries(c.mem.status)) && AllParse(es) && es != []
    ensures AfterApply(c, es).mem.status.lastApplied == c.mem.status.lastApplied
  {
    hide AllParse, MetaSet;
  }

  lemma DeleteNothing(k: NamespacedName, live: LiveObjects)
    ensures DeleteFrom(k, live, {}) == live
    ensures Kept(k, live, {}) == {}
  {
  }

  lemma RunAfterGet(noCross: bool, k: NamespacedName, w: World, a: Artifact)
    requires w.cell.pc == Idle && Steady(noCross, k, w, a)
    ensures RunUpToDate(k, OnGet(noCross, k, w.cell), a)
    ensures OnGet(noCross, k, w.cell).stored == w.cell.stored
  {
    hide Build, Resolve, MetaSet, AllAsBuilt, Ids;
  }

  lemma SteadyGet(noCross: bool, k: NamespacedName, w: World, a: Artifact)
    requires w.cell.pc == Idle && Shape(w.cell) && Steady(noCross, k, w, a)
    ensures Steady(noCross, k, World(OnGet(noCross, k, w.cell), w.live), a)
  {
    GetIsOnTarget(noCross, k, w, a);
    RunAfterGet(noCross, k, w, a);
    assert UpToDate(k, w, a);
    SteadyRunStep(noCross, k, w, World(OnGet(noCross, k, w.cell), w.live), a);
    hide *;
  }

  /** The patches of a steady run persist what is persisted already, apart from conditions. */
  lemma PatchKeepsUpToDate(noCross: bool, k: NamespacedName, w: World, a: Artifact)
    requires IsPatch(w.cell.pc) && w.cell.pc != Finish && Steady(noCross, k, w, a)
    ensures
      var d := OnPatch(w.cell, Patched);
      && Able(noCross, k, d, a)
      && UpToDate(k, World(d, w.live), a) && RunUpToDate(k, d, a) && d.pc != Idle
  {
    hide Build, Resolve, MetaSet, AllAsBuilt, Ids;
  }

  lemma SteadyPatch(noCross: bool, k: NamespacedName, w: World, a: Artifact)
    requires IsPatch(w.cell.pc) && w.cell.pc != Finish && Honest(w.cell) && Steady(noCross, k, w, a)
    ensures Steady(noCross, k, World(OnPatch(w.cell, Patched), w.live), a)
  {
    SteadyInfo(noCross, k, w, a);
    PatchStaysOnTarget(k, w, a);
    PatchKeepsUpToDate(noCross, k, w, a);
    hide Build, Resolve, MetaSet, AllAsBuilt, Ids, OnTarget, OnPatch, UpToDate, RunUpToDate, Able;
  }

  lemma FinishKeepsAble(noCross: bool, k: NamespacedName, c: Cell, a: Artifact)
    requires c.pc == Finish && Able(noCross, k, c, a)
    ensures Able(noCross, k, OnFinish(c, Patched), a)
  {
    PatchStored(c, FinalizeStatus(c.mem), Patched);
    hide Build, Resolve, OnFinish, FinalizeStatus;
  }

  lemma SteadyFinish(noCross: bool, k: NamespacedName, w: World, a: Artifact)
    requires w.cell.pc == Finish && Steady(noCross, k, w, a)
    ensures Steady(noCross, k, World(OnFinish(w.cell, Patched), w.live), a)
  {
    SteadyInfo(noCross, k, w, a);
    hide *;
    FinishConverges(noCross, k, w, a);
    FinishKeepsAble(noCross, k, w.cell, a);
    ConvergedIsSteady(noCross, k, World(OnFinish(w.cell, Patched), w.live), a);
  }

  lemma RunAfterWork(noCross: bool, k: NamespacedName, w: World, l: Label, a: Artifact)
    requires Allowed(k, w, l) && FaultFree(l, a) && Steady(noCross, k, w, a) && w.cell.pc != DeleteStale
    requires l.SourceIs? || l.Client? || l.Wait?
    ensures Step(noCross, k, w, l).cell.stored == w.cell.stored && Step(noCross, k, w, l).live == w.live
    ensures Step(noCross, k, w, l).cell.pc != Idle && RunUpToDate(k, Step(noCross, k, w, l).cell, a)
  {
    hide Build, Resolve, MetaSet, Ids, AllAsBuilt;
    hide OnGet, OnPatch, OnFinish, OnApply, OnImpersonation, OnDeleteStale, OnDeleteAll, OnUser;
  }

  lemma RunAfterPruning(noCross: bool, k: NamespacedName, w: World, a: Artifact)
    requires w.cell.pc == DeleteStale && Inventoried(k, w.cell) && Steady(noCross, k, w, a)
    ensures OnDeleteStale(k, w, DeletedAll) == World(CheckHealth(w.cell), w.live)
    ensures CheckHealth(w.cell).stored == w.cell.stored && CheckHealth(w.cell).pc != Idle
    ensures RunUpToDate(k, CheckHealth(w.cell), a)
  {
    hide Build, Resolve, MetaSet, AllParse, DeleteFrom, Ids, AllAsBuilt, Family;
    DeleteNothing(k, w.live);
  }

  lemma SteadyWork(noCross: bool, k: NamespacedName, w: World, l: Label, a: Artifact)
    requires Allowed(k, w, l) && FaultFree(l, a) && Inventoried(k, w.cell) && Steady(noCross, k, w, a)
    requires l.SourceIs? || l.Client? || l.Delete? || l.Wait?
    ensures Steady(noCross, k, Step(noCross, k, w, l), a)
    ensures Step(noCross, k, w, l).live == w.live
  {
    SteadyInfo(noCross, k, w, a);
    if l.Delete? {
      OnTargetPrunes(k, w, l, a);
      DeleteStep(noCross, k, w, DeletedAll);
      assert l == Delete(DeletedAll);
      PruningStaysOnTarget(k, w, a);
      RunAfterPruning(noCross, k, w, a);
      SteadyRunStep(noCross, k, w, World(CheckHealth(w.cell), w.live), a);
      hide *;
    } else {
      NotPruning(k, w, l);
      WorkStaysOnTarget(noCross, k, w, l, a);
      RunAfterWork(noCross, k, w, l, a);
      SteadyRunStep(noCross, k, w, Step(noCross, k, w, l), a);
      hide *;
    }
  }

  lemma NotPruning(k: NamespacedName, w: World, l: Label)
    requires Allowed(k, w, l) && (l.SourceIs? || l.Client? || l.Wait?)
    ensures w.cell.pc != DeleteStale && w.cell.pc != Idle
  {
  }

  lemma SteadyStep(noCross: bool, k: NamespacedName, w: World, l: Label, a: Artifact)
    requires ValidName(k) && Allowed(k, w, l) && FaultFree(l, a)
    requires Good(k, w) && Steady(noCross, k, w, a)
    ensures Steady(noCross, k, Step(noCross, k, w, l), a)
    ensures Step(noCross, k, w, l).live == w.live
    ensures l.Apply? ==> !Drifted(l.apply.entries)
  {
    hide OnGet, OnSource, OnPatch, OnClient, OnApply, OnDeleteStale, OnWait, OnFinish, OnUser;
    hide OnImpersonation, OnFinalClient, OnDeleteAll, Reports, Owned, Shape, Honest, Inventoried, Steady, Drifted;
    if l.Get? {
      SteadyGet(noCross, k, w, a);
    } else if l.Patch? {
      if w.cell.pc == Finish {
        SteadyFinish(noCross, k, w, a);
      } else {
        SteadyPatch(noCross, k, w, a);
      }
    } else if l.Apply? {
      SteadyApply(noCross, k, w, a, l.apply.entries);
    } else {
      SteadyWork(noCross, k, w, l, a);
    }
  }

  lemma {:induction false} SteadyRun(noCross: bool, k: NamespacedName, ws: seq<World>, ls: seq<Label>, a: Artifact)
    requires ValidName(k) && IsRun(noCross, k, ws, ls) && FaultFreeRun(ls, a)
    requires Good(k, ws[0]) && Steady(noCross, k, ws[0], a)
    ensures Good(k, ws[|ls|]) && Steady(noCross, k, ws[|ls|], a) && ws[|ls|].live == ws[0].live
    decreases |ls|
  {
    hide Step, Allowed, Good, Steady, FaultFree;
    if ls != [] {
      var n := |ls| - 1;
      RunInit(noCross, k, ws, ls);
      assert ls[n] == ls[n];
      assert forall i {:trigger ls[..n][i]} :: 0 <= i < n ==> ls[..n][i] == ls[i];
      SteadyRun(noCross, k, ws[..n + 1], ls[..n], a);
      SteadyStep(noCross, k, ws[n], ls[n], a);
      StepKeepsGood(noCross, k, ws[n], ls[n]);
    }
  }

  /** Nothing to prune, and the objects wanted are the ones recorded. */
  predicate NothingStale(c: Cell) {
    c.pc == DeleteStale ==> c.stale == {}
  }

  lemma SteadyFacts(noCross: bool, k: NamespacedName, w: World, a: Artifact)
    requires Steady(noCross, k, w, a)
    ensures NothingStale(w.cell) && (w.cell.pc == Idle ==> Converged(k, w, a))
    ensures w.cell.stored.Some? && Build(k, w.cell.stored.value.spec, a).Success?
    ensures Recorded(w.cell.stored.value) == Ids(Wanted(k, w.cell, a))
    ensures w.cell.stored.value.status.lastApplied == w.cell.stored.value.status.lastAttempted == a.revision
  {
    hide Build, Resolve, MetaSet, AllAsBuilt, Ids, OnTarget;
  }

  /**
   Idempotence: once converged, any further fault-free steps leave every live
   object as it is, report no drift, find nothing stale, keep the inventory's
   identities and the revisions at every moment, and whenever no call is in
   progress the status is the converged one again.
   */
  lemma Idempotent(noCross: bool, k: NamespacedName, ws: seq<World>, ls: seq<Label>, a: Artifact)
    requires ValidName(k) && IsRun(noCross, k, ws, ls) && FaultFreeRun(ls, a)
    requires Good(k, ws[0]) && Able(noCross, k, ws[0].cell, a) && Converged(k, ws[0], a)
    ensures
      var e := ws[|ls|];
      && e.live == ws[0].live
      && (ls != [] && ls[|ls| - 1].Apply? ==> ls[|ls| - 1].apply.Applied? && !Drifted(ls[|ls| - 1].apply.entries))
      && NothingStale(e.cell)
      && e.cell.stored.Some? && Build(k, e.cell.stored.value.spec, a).Success?
      && Recorded(e.cell.stored.value) == Ids(Wanted(k, e.cell, a))
      && e.cell.stored.value.status.lastApplied == e.cell.stored.value.status.lastAttempted == a.revision
      && (e.cell.pc == Idle ==> Converged(k, e, a))
  {
    hide Step, Allowed, Good, Steady, Converged, Able, Drifted, Recorded, Ids, Wanted, Build, NothingStale;
    ConvergedIsSteady(noCross, k, ws[0], a);
    SteadyRun(noCross, k, ws, ls, a);
    SteadyFacts(noCross, k, ws[|ls|], a);
    if ls != [] {
      var n := |ls| - 1;
      RunInit(noCross, k, ws, ls);
      assert ls[n] == ls[n];
      assert forall i {:trigger ls[..n][i]} :: 0 <= i < n ==> ls[..n][i] == ls[i];
      SteadyRun(noCross, k, ws[..n + 1], ls[..n], a);
      SteadyStep(noCross, k, ws[n], ls[n], a);
    }
  }
}
