/**
 What one Reconcile call does, in terms of what it read and the replies it got:
 which source it asks for, what it waits for, what it persists on the way, and
 what it says at its end.
 */
module Calls {
  import opened Wrappers
  import opened ObjectIds
  import opened Inventory
  import opened Api
  import opened Sources
  import opened Manifests
  import opened Cluster
  import opened Machine
  import opened Invariants
  import opened Safety
  import opened Observation

  // ---------- which source is read ----------

  /** The source about to be read may be read. */
  predicate MayRead(noCross: bool, k: NamespacedName, c: Cell) {
    c.pc == GetSource ==> Resolve(noCross, k, c.mem.spec.sourceRef).Lookup?
  }

  lemma GetMayRead(noCross: bool, k: NamespacedName, c: Cell)
    ensures c.pc == Idle ==> MayRead(noCross, k, OnGet(noCross, k, c))
  {
    hide Resolve;
  }

  lemma StepMayRead(noCross: bool, k: NamespacedName, w: World, l: Label)
    requires Allowed(k, w, l) && MayRead(noCross, k, w.cell)
    ensures MayRead(noCross, k, Step(noCross, k, w, l).cell)
  {
    GetMayRead(noCross, k, w.cell);
    hide OnGet, OnUser, Build, Owned, Reports, Resolve, MetaSet, DeleteFrom, AllParse, CheckHealth, FinalTargets;
    hide AfterApply;
    if l.Apply? && l.apply.Applied? {
      AfterApplyFacts(w.cell, Refs(l.apply.entries));
    } else if l.Delete? {
      CheckHealthFacts(w.cell);
    }
  }

  lemma {:induction false} RunMayRead(noCross: bool, k: NamespacedName, ws: seq<World>, ls: seq<Label>)
    requires IsRunFromStart(noCross, k, ws, ls)
    ensures MayRead(noCross, k, ws[|ls|].cell)
    decreases |ls|
  {
    hide Step, Allowed, Owned;
    if ls != [] {
      hide MayRead, Initial;
      var n := |ls| - 1;
      RunInit(noCross, k, ws, ls);
      RunMayRead(noCross, k, ws[..n + 1], ls[..n]);
      StepMayRead(noCross, k, ws[n], ls[n]);
    }
  }

  /**
   Whatever source a call reads is the one its reference names, of a supported
   kind, and in the LanguageModel's own namespace if the reference names none
   or references to other namespaces are blocked.
   */
  lemma ReadsItsSource(noCross: bool, k: NamespacedName, ws: seq<World>, ls: seq<Label>, i: nat)
    requires IsRunFromStart(noCross, k, ws, ls) && i < |ls| && ls[i].SourceIs?
    ensures
      var ref, kind, from := ws[i].cell.mem.spec.sourceRef, ls[i].kind, ls[i].from;
      && kind == ref.kind && kind in {"OCIRepository", "GitRepository", "Bucket"}
      && from.name == ref.name
      && from.namespace == (if ref.namespace == "" then k.namespace else ref.namespace)
      && (noCross ==> from.namespace == k.namespace)
  {
    hide Step;
    assert ls[i] == ls[i];
    RunPrefix(noCross, k, ws, ls, i);
    RunMayRead(noCross, k, ws[..i + 1], ls[..i]);
    var ref := ws[i].cell.mem.spec.sourceRef;
    ResolveExactly(noCross, k, ref);
    ResolveExactly(false, k, ref);
    hide Resolve;
  }

  // ---------- what is waited for ----------

  lemma AwaitsRecorded(k: NamespacedName, c: Cell)
    requires c.pc == WaitHealthy && Inventoried(k, c) && Faithful(k, c)
    ensures Awaited(k, c.mem) == Recorded(c.mem) == Ids(c.objs) == RecordedIn(c.stored)
    ensures Build(k, c.mem.spec, c.artifact) == Success(c.objs)
  {
    hide Build, Ids, MetaSet;
    FamilyIsNotItself(k);
  }

  lemma FamilyIsNotItself(k: NamespacedName)
    ensures forall m :: m in Family(k) ==> !IsItself(k, m)
  {
    assert |"LanguageModel"| == 13 && |"Deployment"| == 10 && |"Service"| == 7 && |"PersistentVolumeClaim"| == 21;
  }

  /**
   Every health check of every run waits for exactly the objects that were
   built from what the call read, and by then they are what is recorded, in the
   persisted inventory.
   */
  lemma WaitsForEverything(noCross: bool, k: NamespacedName, ws: seq<World>, ls: seq<Label>, i: nat)
    requires IsRunFromStart(noCross, k, ws, ls) && i < |ls| && ls[i].Wait?
    ensures
      var c := ws[i].cell;
      && Build(k, c.mem.spec, c.artifact) == Success(c.objs)
      && ls[i].awaited == Ids(c.objs) == RecordedIn(c.stored)
  {
    hide Step, Good, Faithful, Awaited, Build, Ids, Initial;
    assert ls[i] == ls[i];
    RunPrefix(noCross, k, ws, ls, i);
    ReachableIsGood(noCross, k, ws[..i + 1], ls[..i]);
    GoodInventoried(k, ws[i]);
    RunIsFaithful(noCross, k, ws[..i + 1], ls[..i]);
    AwaitsRecorded(k, ws[i].cell);
  }

  // ---------- what is persisted on the way ----------

  const IN_PROGRESS := Condition(Unknown, Progressing)
  const CHECKED := Condition(True, Succeeded)

  /** The status of an object whose reconciliation has begun. */
  function Begun(read: Status): Status {
    read.(ready := Some(IN_PROGRESS), reconciling := Some(Condition(True, Progressing)))
  }

  /** Likewise, once the revision to be applied is known. */
  function Attempting(read: Status, revision: string): Status {
    Begun(read).(lastAttempted := revision)
  }

  /** Likewise, once everything is applied, recorded, and being checked. */
  function Checking(read: Status, revision: string, inventory: Option<seq<ResourceRef>>): Status {
    Attempting(read, revision).(inventory := inventory, healthy := Some(IN_PROGRESS))
  }

  /** The controller's copy before each of its calls. */
  predicate CopyIs(read: Status, c: Cell) {
    var s, revision := c.mem.status, c.artifact.revision;
    match c.pc
    case PatchProgressing => s == Begun(read)
    case PatchAttempted | GetClient | PatchDrift | ApplyObjects => s == Attempting(read, revision)
    case DeleteStale => s == Attempting(read, revision).(inventory := s.inventory)
    case PatchChecking | WaitHealthy => s == Checking(read, revision, s.inventory)
    case PatchHealthy => s == Checking(read, revision, s.inventory).(healthy := Some(CHECKED))
    case _ => s == read
  }

  /** The persisted status at the same time. */
  predicate StoredIs(read: Status, c: Cell)
    requires c.stored.Some?
  {
    var s, revision := c.stored.value.status, c.artifact.revision;
    match c.pc
    case PatchAttempted => s == Begun(read)
    case GetClient | PatchDrift | ApplyObjects | DeleteStale | PatchChecking => s == Attempting(read, revision)
    case WaitHealthy | PatchHealthy => s == Checking(read, revision, c.mem.status.inventory)
    case _ => s == read
  }

  /** A call that has read this object and is not at its end. */
  predicate InCall(read: LanguageModel, c: Cell) {
    c.pc != Finish ==>
      && c.mem == read.(status := c.mem.status) && CopyIs(read.status, c)
      && c.stored.Some? && StoredIs(read.status, c)
  }

  lemma GetBeginsCall(noCross: bool, k: NamespacedName, c: Cell)
    requires c.pc == Idle && c.stored.Some?
    ensures InCall(c.stored.value, OnGet(noCross, k, c))
  {
    hide Resolve;
  }

  lemma PatchStaysInCall(read: LanguageModel, c: Cell, r: PatchReply)
    requires InCall(read, c) && Shape(c) && IsPatch(c.pc) && c.pc != Finish
    ensures InCall(read, OnPatch(c, r))
  {
  }

  lemma ApplyStaysInCall(k: NamespacedName, read: LanguageModel, w: World, r: ApplyReply)
    requires ValidName(k) && Allowed(k, w, Apply(r)) && Inventoried(k, w.cell) && InCall(read, w.cell)
    ensures InCall(read, OnApply(k, w, r).cell)
  {
    hide Build, AllParse, MetaSet, Refs, Reports, ApplyTo, Desired, Owned, Family, Ids, Restrict;
    if r.Applied? {
      AppliedInventory(k, w, r.entries);
    }
  }

  lemma DeleteStaysInCall(k: NamespacedName, read: LanguageModel, w: World, r: DeleteReply)
    requires w.cell.pc == DeleteStale && Faithful(k, w.cell) && InCall(read, w.cell)
    ensures InCall(read, OnDeleteStale(k, w, r).cell)
  {
    hide Build, MetaSet, DeleteFrom, Ids;
  }

  lemma OtherStaysInCall(noCross: bool, k: NamespacedName, read: LanguageModel, w: World, l: Label)
    requires Allowed(k, w, l) && InCall(read, w.cell)
    requires l.SourceIs? || l.Client? || l.Wait? || l.Impersonation? || (l.Delete? && w.cell.pc == DeleteAll)
    ensures InCall(read, Step(noCross, k, w, l).cell)
  {
    hide Build, MetaSet, DeleteFrom, FinalTargets, Resolve, Owned, Reports, OnGet, OnPatch, OnFinish, OnApply, OnUser;
    hide OnDeleteStale;
  }

  /** Users change neither finalizer nor status of an object that has a finalizer. */
  lemma UserLeavesCall(read: LanguageModel, c: Cell, l: Label)
    requires Shape(c) && InCall(read, c) && UserLabel(l) && c.pc != Idle
    ensures InCall(read, c.(stored := OnUser(c.stored, l)))
  {
  }

  lemma StepStaysInCall(noCross: bool, k: NamespacedName, read: LanguageModel, w: World, l: Label)
    requires ValidName(k) && Allowed(k, w, l) && Good(k, w) && Faithful(k, w.cell)
    requires InCall(read, w.cell) && w.cell.pc != Idle && Step(noCross, k, w, l).cell.pc != Idle
    ensures InCall(read, Step(noCross, k, w, l).cell)
  {
    hide OnGet, OnSource, OnPatch, OnClient, OnApply, OnDeleteStale, OnWait, OnFinish, OnUser;
    hide OnImpersonation, OnFinalClient, OnDeleteAll, Reports, Owned, Shape, Honest, Inventoried, Faithful;
    hide CopyIs, StoredIs;
    if l.Patch? {
      if w.cell.pc != Finish {
        PatchStaysInCall(read, w.cell, l.patch);
      } else {
        FinishEnds(w.cell, l.patch);
      }
    } else if l.Apply? {
      ApplyStaysInCall(k, read, w, l.apply);
    } else if l.Delete? && w.cell.pc == DeleteStale {
      DeleteStaysInCall(k, read, w, l.delete);
    } else if UserLabel(l) {
      UserLeavesCall(read, w.cell, l);
    } else if l.SourceIs? || l.Client? || l.Wait? || l.Impersonation? || l.Delete? {
      OtherStaysInCall(noCross, k, read, w, l);
    } else {
      hide *;
      OutsideLeavesCall(noCross, k, read, w, l);
    }
  }

  lemma FinishEnds(c: Cell, r: PatchReply)
    ensures OnFinish(c, r).pc == Idle
  {
  }

  lemma OutsideLeavesCall(noCross: bool, k: NamespacedName, read: LanguageModel, w: World, l: Label)
    requires InCall(read, w.cell) && l.Outside?
    ensures InCall(read, Step(noCross, k, w, l).cell)
  {
  }

  /** All through a call, copy and persisted status are what the read object and the call so far say. */
  lemma {:induction false} RunIsInCall(
      noCross: bool, k: NamespacedName, ws: seq<World>, ls: seq<Label>, i: nat, n: nat)
    requires IsRunFromStart(noCross, k, ws, ls) && i < n < |ws| && SameCall(ws, ls, i, n)
    ensures InCall(ws[i].cell.stored.value, ws[n].cell)
    decreases n
  {
    hide Step, Allowed, Good, Faithful, InCall, Initial;
    var read := ws[i].cell.stored.value;
    assert ls[n - 1] == ls[n - 1];
    if n == i + 1 {
      GetIsAtRest(k, ws[i]);
      GetStep(noCross, k, ws[i]);
      GetBeginsCall(noCross, k, ws[i].cell);
    } else {
      RunIsInCall(noCross, k, ws, ls, i, n - 1);
      RunPrefix(noCross, k, ws, ls, n - 1);
      ReachableIsGood(noCross, k, ws[..n], ls[..n - 1]);
      RunIsFaithful(noCross, k, ws[..n], ls[..n - 1]);
      StepStaysInCall(noCross, k, read, ws[n - 1], ls[n - 1]);
    }
  }

  /**
   When a call starts to apply, the persisted status already says that it is in
   progress, and towards which revision, and is otherwise as it was read. When
   it starts to wait, it also holds the inventory of what was built, and says
   that health is being checked.
   */
  lemma ProgressIsPersisted(noCross: bool, k: NamespacedName, ws: seq<World>, ls: seq<Label>, i: nat, n: nat)
    requires IsRunFromStart(noCross, k, ws, ls) && i < n < |ls| && SameCall(ws, ls, i, n)
    requires ls[n].Apply? || ls[n].Wait?
    ensures
      var read, c := ws[i].cell.stored.value, ws[n].cell;
      && c.stored.Some?
      && var s, revision := c.stored.value.status, c.artifact.revision;
         && (ls[n].Apply? ==> s == Attempting(read.status, revision))
         && (ls[n].Wait? ==> s == Checking(read.status, revision, s.inventory) && MetaSet(Entries(s)) == Ids(c.objs))
  {
    hide Step, Ids, Initial, Awaited;
    assert ls[n] == ls[n];
    RunIsInCall(noCross, k, ws, ls, i, n);
    if ls[n].Wait? {
      WaitsForEverything(noCross, k, ws, ls, n);
    }
    hide MetaSet;
  }

  // ---------- how a call ends ----------

  /** Whether finalizing this object includes deleting what it recorded. */
  predicate Finalizes(lm: LanguageModel) {
    lm.deleting && lm.spec.prune && !lm.spec.suspend && lm.status.inventory.Some?
  }

  /** Whether a call that read this object goes on to look up its source. */
  predicate LooksUp(noCross: bool, k: NamespacedName, lm: LanguageModel) {
    !lm.deleting && lm.finalizer && !lm.spec.suspend && Resolve(noCross, k, lm.spec.sourceRef).Lookup?
  }

  /** Whether this reply is the last one before the final patch. */
  predicate IsLast(noCross: bool, k: NamespacedName, read: LanguageModel, c: Cell, l: Label) {
    match l
    case Get => !Finalizes(read) && !LooksUp(noCross, k, read)
    case SourceIs(_, _, r) => !r.HasArtifact?
    case Impersonation(possible) => !possible
    case Client(ok) => !ok || (!read.deleting && Build(k, read.spec, c.artifact).Failure?)
    case Apply(r) => r.ApplyFailed?
    case Delete(r) => read.deleting || r.DeleteFailed?
    case Wait(_, healthy) => !healthy
    case Patch(r) => r != Patched || c.pc == PatchHealthy
    case _ => false
  }

  datatype Verdict = Verdict(outcome: Outcome, ready: Option<Condition>)

  function Failed(r: Reason): Option<Condition> {
    Some(Condition(False, r))
  }

  /** What a call that read this object concludes from its last reply; `checking` is about a failing patch alone. */
  function VerdictOn(noCross: bool, k: NamespacedName, read: LanguageModel, checking: bool, l: Label): Verdict {
    var kept := read.status.ready;
    match l
    case Get =>
      if read.deleting || (read.finalizer && read.spec.suspend) then Verdict(NoRequeue, kept)
      else if !read.finalizer then Verdict(Requeue, kept)
      else if Resolve(noCross, k, read.spec.sourceRef).Denied? then Verdict(RetryLater, Failed(AccessDenied))
      else Verdict(RequeueWithError, Failed(ArtifactFailed))
    case SourceIs(_, _, r) => Verdict(if r.SourceError? then RequeueWithError else RetryLater, Failed(ArtifactFailed))
    case Client(_) =>
      if read.deleting then Verdict(RequeueWithError, kept) else Verdict(RetryLater, Failed(ReconciliationFailed))
    case Apply(_) => Verdict(RetryLater, Failed(ReconciliationFailed))
    case Delete(r) =>
      if read.deleting then Verdict(if r.DeletedAll? then NoRequeue else RequeueWithError, kept)
      else Verdict(RetryLater, Failed(PruneFailed))
    case Wait(_, _) => Verdict(RetryLater, Failed(HealthCheckFailed))
    case Patch(Patched) => Verdict(NextInterval, Some(Condition(True, ReconciliationSucceeded)))
    case Patch(_) => Verdict(RetryLater, if checking then Failed(HealthCheckFailed) else Some(IN_PROGRESS))
    case _ => Verdict(NoRequeue, kept)
  }

  /** This cell is at the end of a call with this verdict; apart from that the copy is as it was. */
  predicate Told(read: LanguageModel, copy: Status, revision: string, l: Label, v: Verdict, d: Cell) {
    && d.pc == Finish && d.outcome == v.outcome
    && d.mem.finalizer == !(read.deleting && v.outcome == NoRequeue)
    && d.mem.status == copy.(
         ready := v.ready,
         healthy := if l.Wait? then Failed(HealthCheckFailed) else copy.healthy,
         lastApplied := if v.outcome == NextInterval then revision else read.status.lastApplied)
  }

  /** Whether the copy says that health is being or was checked in this call. */
  predicate IsChecking(pc: Pc) {
    pc == PatchChecking || pc == PatchHealthy
  }

  /** The controller's copy when it gets a reply; after a Get, what it has just read. */
  function CopyAt(c: Cell): Status {
    SearchedFor(c).status
  }

  predicate Concludes(noCross: bool, k: NamespacedName, read: LanguageModel, c: Cell, l: Label, d: Cell) {
    && (d.pc == Finish <==> IsLast(noCross, k, read, c, l))
    && (IsLast(noCross, k, read, c, l) ==>
          Told(read, CopyAt(c), c.artifact.revision, l, VerdictOn(noCross, k, read, IsChecking(c.pc), l), d))
  }

  lemma GetConcludes(noCross: bool, k: NamespacedName, c: Cell)
    requires c.pc == Idle && c.stored.Some? && Shape(c)
    ensures Concludes(noCross, k, c.stored.value, c, Get, OnGet(noCross, k, c))
  {
    hide Resolve, MetaSet, Build;
  }

  lemma PatchConcludes(noCross: bool, k: NamespacedName, read: LanguageModel, c: Cell, r: PatchReply)
    requires InCall(read, c) && Shape(c) && Faithful(k, c) && IsPatch(c.pc) && c.pc != Finish
    ensures Concludes(noCross, k, read, c, Patch(r), OnPatch(c, r))
  {
    hide Resolve, MetaSet, Build, Ids;
  }

  lemma ApplyFailConcludes(
      noCross: bool, k: NamespacedName, read: LanguageModel, w: World, part: set<ObjMetadata>)
    requires w.cell.pc == ApplyObjects && InCall(read, w.cell) && Shape(w.cell)
    ensures Concludes(noCross, k, read, w.cell, Apply(ApplyFailed(part)), OnApply(k, w, ApplyFailed(part)).cell)
  {
    hide ApplyTo, Desired, Restrict, AfterApply, MetaSet, Build, Resolve;
  }

  lemma ApplyConcludes(noCross: bool, k: NamespacedName, read: LanguageModel, w: World, r: ApplyReply)
    requires ValidName(k) && Allowed(k, w, Apply(r)) && InCall(read, w.cell)
    requires Shape(w.cell) && Inventoried(k, w.cell)
    ensures Concludes(noCross, k, read, w.cell, Apply(r), OnApply(k, w, r).cell)
  {
    hide Build, AllParse, MetaSet, Refs, Reports, ApplyTo, Desired, Owned, Family, Ids, Restrict, AfterApply;
    match r
    case ApplyFailed(part) =>
      ApplyFailConcludes(noCross, k, read, w, part);
    case Applied(entries) =>
      AppliedInventory(k, w, entries);
      AfterApplyInventory(w.cell, Refs(entries));
      hide InCall, Shape, Told;
  }

  lemma DeleteConcludes(noCross: bool, k: NamespacedName, read: LanguageModel, w: World, r: DeleteReply)
    requires w.cell.pc == DeleteStale || w.cell.pc == DeleteAll
    requires InCall(read, w.cell) && Shape(w.cell) && Faithful(k, w.cell)
    ensures Concludes(noCross, k, read, w.cell, Delete(r),
                      if w.cell.pc == DeleteStale then OnDeleteStale(k, w, r).cell else OnDeleteAll(k, w, r).cell)
  {
    hide Build, MetaSet, DeleteFrom, Ids, FinalTargets;
  }

  lemma OtherConcludes(noCross: bool, k: NamespacedName, read: LanguageModel, w: World, l: Label)
    requires Allowed(k, w, l) && InCall(read, w.cell) && Shape(w.cell) && Faithful(k, w.cell)
    requires l.SourceIs? || l.Client? || l.Wait? || l.Impersonation?
    ensures Concludes(noCross, k, read, w.cell, l, Step(noCross, k, w, l).cell)
  {
    hide Build, MetaSet, DeleteFrom, FinalTargets, Resolve, Owned, Reports, OnGet, OnPatch, OnFinish, OnApply, OnUser;
    hide OnDeleteStale, OnDeleteAll, Ids;
  }

  lemma StepConcludes(noCross: bool, k: NamespacedName, read: LanguageModel, w: World, l: Label)
    requires ValidName(k) && Allowed(k, w, l) && Good(k, w) && Faithful(k, w.cell)
    requires InCall(read, w.cell) && w.cell.pc != Idle && w.cell.pc != Finish
    ensures Concludes(noCross, k, read, w.cell, l, Step(noCross, k, w, l).cell)
  {
    hide OnGet, OnSource, OnPatch, OnClient, OnApply, OnDeleteStale, OnWait, OnFinish, OnUser;
    hide OnImpersonation, OnFinalClient, OnDeleteAll, Reports, Owned, Shape, Honest, Inventoried, Faithful;
    hide InCall, Told;
    if l.Patch? {
      PatchConcludes(noCross, k, read, w.cell, l.patch);
    } else if l.Apply? {
      ApplyConcludes(noCross, k, read, w, l.apply);
    } else if l.Delete? {
      DeleteConcludes(noCross, k, read, w, l.delete);
    } else if l.SourceIs? || l.Client? || l.Wait? || l.Impersonation? {
      OtherConcludes(noCross, k, read, w, l);
    }
  }

  /**
   Which reply ends a call, and what the call concludes from it, for every reply
   at every moment of every call: the requeue asked for, whether the finalizer
   stays, and a Ready condition whose reason names what failed. An error in one
   of the call's own status patches leaves Ready at Progressing. A finalization
   leaves the conditions alone.
   */
  lemma CallConcludes(noCross: bool, k: NamespacedName, ws: seq<World>, ls: seq<Label>, i: nat, n: nat)
    requires IsRunFromStart(noCross, k, ws, ls) && i <= n < |ls| && SameCall(ws, ls, i, n)
    requires ws[n].cell.pc != Finish
    ensures Concludes(noCross, k, ws[i].cell.stored.value, ws[n].cell, ls[n], ws[n + 1].cell)
  {
    hide Step, Allowed, Initial, Concludes, InCall, Good, Faithful;
    assert ls[n] == ls[n];
    RunPrefix(noCross, k, ws, ls, n);
    ReachableIsGood(noCross, k, ws[..n + 1], ls[..n]);
    if n == i {
      GetIsAtRest(k, ws[i]);
      GetStep(noCross, k, ws[i]);
      GoodFacts(k, ws[i]);
      GetConcludes(noCross, k, ws[i].cell);
    } else {
      RunIsInCall(noCross, k, ws, ls, i, n);
      RunIsFaithful(noCross, k, ws[..n + 1], ls[..n]);
      StepConcludes(noCross, k, ws[i].cell.stored.value, ws[n], ls[n]);
    }
  }

  /** Until its final patch, a call that has concluded sticks to it. */
  lemma FinishStays(noCross: bool, k: NamespacedName, w: World, l: Label)
    requires Allowed(k, w, l) && w.cell.pc == Finish && Step(noCross, k, w, l).cell.pc == Finish
    ensures Step(noCross, k, w, l).cell.mem == w.cell.mem && Step(noCross, k, w, l).cell.outcome == w.cell.outcome
  {
    hide OnGet, OnPatch, OnUser, Owned, Reports, FinalizeStatus;
  }

  lemma {:induction false} FinishKeeps(
      noCross: bool, k: NamespacedName, ws: seq<World>, ls: seq<Label>, j: nat, n: nat)
    requires IsRun(noCross, k, ws, ls) && j <= n < |ws| && forall m | j <= m <= n :: ws[m].cell.pc == Finish
    ensures ws[n].cell.mem == ws[j].cell.mem && ws[n].cell.outcome == ws[j].cell.outcome
    decreases n
  {
    hide Step, Allowed;
    if j < n {
      assert ls[n - 1] == ls[n - 1];
      FinishKeeps(noCross, k, ws, ls, j, n - 1);
      FinishStays(noCross, k, ws[n - 1], ls[n - 1]);
    }
  }

  /**
   So that is how the call ends, whatever happens between its last reply, the
   j-th, and its final patch, the n-th: the work queue gets the requeue
   concluded, unless the patch fails, and what is persisted says as much.
   */
  lemma CallTells(
      noCross: bool, k: NamespacedName, ws: seq<World>, ls: seq<Label>, i: nat, j: nat, n: nat, r: PatchReply)
    requires IsRunFromStart(noCross, k, ws, ls) && i <= j < n < |ls| && SameCall(ws, ls, i, n)
    requires ws[j].cell.pc != Finish && (forall m | j < m <= n :: ws[m].cell.pc == Finish) && ls[n] == Patch(r)
    ensures
      var read, c, l, d := ws[i].cell.stored.value, ws[j].cell, ls[j], ws[n + 1].cell;
      var v := VerdictOn(noCross, k, read, IsChecking(c.pc), l);
      && d.pc == Idle && d.outcome == (if r == Patched then v.outcome else RequeueWithError)
      && (Persists(r) && d.stored.Some? ==>
            var s := d.stored.value.status;
            && s.ready == v.ready
            && s.healthy == (if l.Wait? then Failed(HealthCheckFailed) else CopyAt(c).healthy)
            && s.lastApplied == (if v.outcome == NextInterval then c.artifact.revision else read.status.lastApplied)
            && s.lastAttempted == CopyAt(c).lastAttempted
            && s.inventory == CopyAt(c).inventory
            && d.stored.value.finalizer == !(read.deleting && v.outcome == NoRequeue))
  {
    hide Step, Initial, IsLast, InCall, Good, Faithful, VerdictOn;
    assert ls[n] == ls[n];
    CallConcludes(noCross, k, ws, ls, i, j);
    FinishKeeps(noCross, k, ws, ls, j + 1, n);
    PatchStep(noCross, k, ws[n], r);
    FinalPatchTells(ws[n].cell, r);
    hide Allowed, OnFinish;
  }

  lemma FinalPatchTells(c: Cell, r: PatchReply)
    requires c.pc == Finish && (Persists(r) ==> c.stored.Some?)
    ensures
      var d := OnFinish(c, r);
      && d.pc == Idle && d.outcome == (if r == Patched then c.outcome else RequeueWithError)
      && (Persists(r) && d.stored.Some? ==>
            var s := d.stored.value.status;
            && s.ready == c.mem.status.ready && s.healthy == c.mem.status.healthy
            && s.lastApplied == c.mem.status.lastApplied && s.lastAttempted == c.mem.status.lastAttempted
            && s.inventory == c.mem.status.inventory
            && d.stored.value.finalizer == c.mem.finalizer)
  {
  }
}
