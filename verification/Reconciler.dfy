/**
 The controller itself, working on its copy of the object step by step, and
 proved to take exactly the steps of the machine.
 */
module Reconciler {
  import opened Wrappers
  import opened ObjectIds
  import opened ChangeSets
  import opened Inventory
  import opened Sorting
  import opened Api
  import opened Sources
  import opened Manifests
  import opened Cluster
  import opened Machine
  import opened Invariants
  import opened Safety
  import opened Orphans
  import opened StagedApply
  import Calls

  /** The controller's copy of the object, updated in place. */
  class LanguageModelObject {
    const spec: Spec
    const generation: nat
    const requested: Option<string>
    const deleting: bool
    var finalizer: bool
    var ready: Option<Condition>
    var reconciling: Option<Condition>
    var healthy: Option<Condition>
    var observedGeneration: int
    var lastAttempted: string
    var lastApplied: string
    var lastHandled: string
    var inventory: ResourceInventory?

    function StatusValue(): Status
      reads this, inventory
    {
      Status(ready, reconciling, healthy, observedGeneration, lastAttempted, lastApplied, lastHandled,
        if inventory == null then None else Some(inventory.entries))
    }

    function Value(): LanguageModel
      reads this, inventory
    {
      LanguageModel(spec, generation, requested, deleting, finalizer, StatusValue())
    }

    constructor (lm: LanguageModel)
      ensures Value() == lm
      ensures inventory == null || fresh(inventory)
    {
      spec, generation, requested := lm.spec, lm.generation, lm.requested;
      deleting, finalizer := lm.deleting, lm.finalizer;
      ready, reconciling, healthy := lm.status.ready, lm.status.reconciling, lm.status.healthy;
      observedGeneration := lm.status.observedGeneration;
      lastAttempted, lastApplied := lm.status.lastAttempted, lm.status.lastApplied;
      lastHandled := lm.status.lastHandled;
      if lm.status.inventory.Some? {
        var i := new ResourceInventory();
        i.entries := lm.status.inventory.value;
        inventory := i;
      } else {
        inventory := null;
      }
    }

    method MarkReady(s: ConditionStatus, r: Reason)
      modifies this`ready
      ensures Value() == Machine.MarkReady(old(Value()), s, r)
    {
      ready := Some(Condition(s, r));
    }

    method MarkReconciling()
      modifies this`reconciling
      ensures Value() == Machine.MarkReconciling(old(Value()))
    {
      reconciling := Some(Condition(True, Progressing));
    }

    method MarkHealthy(s: ConditionStatus, r: Reason)
      modifies this`healthy
      ensures Value() == Machine.MarkHealthy(old(Value()), s, r)
    {
      healthy := Some(Condition(s, r));
    }
  }

  /**
   How many Reconcile calls a run has started, whether or not they could read
   the object, and how many crashes it has seen.
   */
  function Turns(ls: seq<Label>): nat {
    if ls == [] then 0
    else
      var l := ls[|ls| - 1];
      Turns(ls[..|ls| - 1]) + if l.Get? || l.GetFailed? || l.Crash? then 1 else 0
  }

  /**
   The API server and the cluster as one LanguageModel's controller meets them.
   Every call may fail, and others act before any call. The ghost fields record
   the run of the machine so far.
   */
  class Environment {
    const noCross: bool
    const manager: ResourceManager
    var stored: Option<LanguageModel>
    ghost var worlds: seq<World>
    ghost var labels: seq<Label>
    ghost var now: World
    ghost var turns: nat

    ghost predicate Valid()
      reads this, manager
    {
      && IsRunFromStart(noCross, manager.key, worlds, labels)
      && now == worlds[|labels|]
      && turns == Turns(labels)
      && now.cell.stored == stored
      && now.live == manager.live
    }

    constructor (noCross: bool, manager: ResourceManager)
      requires ValidName(manager.key) && Owned(manager.key, manager.live) == {}
      ensures this.noCross == noCross && this.manager == manager
      ensures Valid() && labels == []
    {
      this.noCross, this.manager, stored := noCross, manager, None;
      worlds, labels, now, turns := [World(INITIAL_CELL, manager.live)], [], World(INITIAL_CELL, manager.live), 0;
    }

    /** The run has gone on, in the same Reconcile call and without a crash. */
    twostate predicate Continues()
      reads this
    {
      old(labels) <= labels && turns == old(turns)
    }

    /** One more step of the run. */
    ghost method Advance(l: Label)
      requires IsRunFromStart(noCross, manager.key, worlds, labels) && Allowed(manager.key, now, l)
      requires now == worlds[|labels|] && turns == Turns(labels)
      modifies this`worlds, this`labels, this`now, this`turns
      ensures IsRunFromStart(noCross, manager.key, worlds, labels)
      ensures now == worlds[|labels|] && turns == Turns(labels)
      ensures now == Step(noCross, manager.key, old(now), l)
      ensures labels == old(labels) + [l]
      ensures turns == old(turns) + if l.Get? || l.GetFailed? || l.Crash? then 1 else 0
    {
      hide Allowed, Step;
      RunSnoc(noCross, manager.key, worlds, labels, l);
      assert (labels + [l])[..|labels|] == labels;
      now := Step(noCross, manager.key, now, l);
      worlds, labels := worlds + [now], labels + [l];
      turns := turns + if l.Get? || l.GetFailed? || l.Crash? then 1 else 0;
    }

    /** Users and other controllers do as they please. */
    method Interfere()
      requires Valid()
      modifies this, manager`live
      ensures Valid() && Continues()
      ensures now.cell == old(now).cell.(stored := stored)
    {
      hide Turns, IsRun, Initial, OnGet, OnSource, OnPatch, OnClient, OnApply, OnDeleteStale, OnWait, OnFinish;
      hide OnImpersonation, OnFinalClient, OnDeleteAll, Reports, Owned;
      var n: nat := *;
      while n > 0
        invariant Valid() && Continues()
        invariant now.cell == old(now).cell.(stored := stored)
      {
        n := n - 1;
        var spec: Spec := *;
        var l: Label := *;
        var live: LiveObjects := *;
        if UserLabel(l) {
          if l.Created? == stored.None? {
            Advance(l);
            stored := OnUser(stored, l);
          }
        } else if Owned(manager.key, live) <= Owned(manager.key, manager.live) {
          Advance(Outside(live));
          manager.live := live;
        }
      }
    }

    method Get() returns (o: Option<LanguageModel>, err: bool)
      requires Valid() && now.cell.pc == Idle
      modifies this, manager`live
      ensures Valid() && old(labels) <= labels && turns == old(turns) + 1
      ensures err ==> now.cell.pc == Idle && now.cell.outcome == RequeueWithError
      ensures !err && o.None? ==> now.cell.pc == Idle && now.cell.outcome == NoRequeue
      ensures !err && o.Some? ==> AfterGet(noCross, manager.key, o.value, now.cell)
    {
      hide Step, Allowed, OnGet, AfterGet;
      Interfere();
      err := *;
      o := stored;
      if err {
        GetStep(noCross, manager.key, now);
        Advance(GetFailed);
        return;
      }
      GetStep(noCross, manager.key, now);
      GetEffect(noCross, manager.key, now);
      Advance(Machine.Get);
    }

    method ReadSource(kind: string, from: NamespacedName) returns (r: SourceReply)
      requires Valid() && now.cell.pc == Machine.GetSource
      requires Resolve(false, manager.key, now.cell.mem.spec.sourceRef) == Lookup(kind, from)
      modifies this, manager`live
      ensures Valid() && Continues()
      ensures AfterSource(old(now).cell.mem, now.cell, Fetched(r))
    {
      hide Step, Allowed, OnSource, AfterSource;
      Interfere();
      r := *;
      SourceStep(noCross, manager.key, now, kind, from, r);
      SourceEffect(now.cell, r);
      Advance(SourceIs(kind, from, r));
    }

    /** Writing the copy's status and finalizer back. */
    method Persist(obj: LanguageModelObject) returns (r: PatchReply, ghost before: Cell)
      requires Valid() && IsPatch(now.cell.pc)
      requires obj.Value() == (if now.cell.pc == Finish then FinalizeStatus(now.cell.mem) else now.cell.mem)
      modifies this, manager`live
      ensures Valid() && Continues()
      ensures before == old(now).cell.(stored := before.stored)
      ensures now.cell == if before.pc == Finish then OnFinish(before, r) else OnPatch(before, r)
    {
      hide Step, Allowed, OnPatch, OnFinish, FinalizeStatus, IsRun, Turns, Initial;
      hide LanguageModelObject.Value, LanguageModelObject.StatusValue;
      Interfere();
      before := now.cell;
      r := *;
      if stored.None? {
        r := NotPatched;
      }
      var copy := obj.Value();
      PatchStep(noCross, manager.key, now, r);
      PatchStored(before, copy, r);
      Advance(Patch(r));
      if Persists(r) {
        var lm := stored.value;
        stored := if lm.deleting && !copy.finalizer then None
                  else Some(lm.(finalizer := copy.finalizer, status := copy.status));
      }
    }

    /** A status patch in the middle of a reconciliation. */
    method PatchObject(obj: LanguageModelObject) returns (err: bool)
      requires Valid() && IsPatch(now.cell.pc) && now.cell.pc != Finish && obj.Value() == now.cell.mem
      modifies this, manager`live
      ensures Valid() && Continues()
      ensures AfterPatch(old(now).cell, now.cell, err)
    {
      var r;
      ghost var before;
      r, before := Persist(obj);
      err := r != Patched;
      PatchEffect(before, r);
      hide Turns, IsRun, Initial, OnPatch, OnFinish, FinalizeStatus, Step, Allowed;
    }

    /** The patch that ends every Reconcile call. */
    method PatchFinally(obj: LanguageModelObject) returns (err: bool)
      requires Valid() && now.cell.pc == Finish && obj.Value() == FinalizeStatus(now.cell.mem)
      modifies this, manager`live
      ensures Valid() && Continues()
      ensures now.cell.pc == Idle
      ensures now.cell.outcome == if err then RequeueWithError else old(now).cell.outcome
    {
      hide Turns, IsRun, Initial, OnPatch, FinalizeStatus, Step, Allowed;
      var r;
      ghost var before;
      r, before := Persist(obj);
      err := r != Patched;
    }

    method GetClient() returns (ok: bool)
      requires Valid() && (now.cell.pc == Machine.GetClient || now.cell.pc == FinalClient)
      modifies this, manager`live
      ensures Valid() && Continues()
      ensures now.cell == (if old(now).cell.pc == Machine.GetClient then OnClient(manager.key, old(now).cell, ok)
                           else OnFinalClient(old(now).cell, ok)).(stored := now.cell.stored)
    {
      hide Step, Allowed, Build;
      Interfere();
      ok := *;
      ClientStep(noCross, manager.key, now, ok);
      Advance(Client(ok));
    }

    method CanImpersonate() returns (possible: bool)
      requires Valid() && now.cell.pc == Machine.CanImpersonate
      modifies this, manager`live
      ensures Valid() && Continues()
      ensures now.cell.mem == (if possible then old(now).cell.mem else old(now).cell.mem.(finalizer := false))
      ensures now.cell.pc == (if possible then FinalClient else Finish)
      ensures !possible ==> now.cell.outcome == NoRequeue
    {
      hide Step, Allowed, Owned;
      Interfere();
      possible := *;
      ImpersonationStep(noCross, manager.key, now, possible);
      Advance(Impersonation(possible));
    }

    /** Applying in stages is one step of the machine, for all its calls. */
    method ApplyAll(objs: seq<Object>, leq: (Object, Object) -> bool)
      returns (r: Option<(bool, seq<ChangeSetEntry>)>)
      requires Valid() && now.cell.pc == Machine.ApplyObjects && now.cell.objs == objs
      requires DistinctIds(objs) && TotalPreorder(leq)
      modifies this, manager
      ensures Valid() && Continues()
      ensures r.Some? ==> AfterApplying(old(now).cell, now.cell, Refs(r.value.1)) && (r.value.0 <==> Drifted(r.value.1))
      ensures r.Some? ==> (set e | e in r.value.1 :: e.meta) == Ids(objs)
      ensures r.None? ==>
                && now.cell.pc == Finish && now.cell.outcome == RetryLater
                && now.cell.mem == Machine.MarkReady(old(now).cell.mem, False, ReconciliationFailed)
    {
      hide Turns, Step, Allowed, OnApply, AfterApplying, Machine.MarkReady;
      hide Owned, Desired, ApplyTo, Restrict, Reports, Plan, Drifted, DistinctIds, Initial, FailsWithin, InStage;
      hide Sorted, TotalPreorder, IsRun;
      Interfere();
      ghost var before := now;
      ghost var part, rest;
      r, part, rest := StagedApply.ApplyObjects(manager, objs, leq);
      ghost var reply := if r.Some? then Applied(r.value.1) else ApplyFailed(part);
      ApplyEffect(noCross, manager.key, before, reply);
      Advance(Apply(reply));
      if r.Some? {
        ReportedIds(manager.key, before.live, objs, r.value.1);
        AfterApplyingStored(old(now).cell, before.cell, now.cell, Refs(r.value.1));
      }
    }

    method DeleteObjects(objs: seq<Unstructured>) returns (ok: bool)
      requires Valid() && (now.cell.pc == Machine.DeleteStale || now.cell.pc == Machine.DeleteAll)
      requires (set o | o in objs :: o.meta) ==
               if now.cell.pc == Machine.DeleteStale then now.cell.stale else FinalTargets(now.cell)
      modifies this, manager`live
      ensures Valid() && Continues()
      ensures AfterDelete(old(now).cell, now.cell, ok)
    {
      hide Step, Allowed, DeleteFrom, AllParse, MetaSet, OnDeleteStale, OnDeleteAll, AfterDelete;
      Interfere();
      ghost var before := now;
      ghost var part;
      ok, part := manager.DeleteAll(objs);
      ghost var reply := if ok then DeletedAll else DeleteFailed(part);
      DeleteStep(noCross, manager.key, before, reply);
      DeleteEffect(noCross, manager.key, before, reply);
      Advance(Delete(reply));
      AfterDeleteStored(old(now).cell, before.cell, now.cell, ok);
    }

    method WaitForSet(metas: seq<ObjMetadata>) returns (ok: bool)
      requires Valid() && now.cell.pc == WaitHealthy
      requires (set m | m in metas) == Awaited(manager.key, now.cell.mem)
      modifies this, manager`live
      ensures Valid() && Continues()
      ensures now.cell.artifact == old(now).cell.artifact
      ensures ok ==>
                && now.cell.pc == PatchHealthy
                && now.cell.mem == Machine.MarkHealthy(old(now).cell.mem, True, Reason.Succeeded)
      ensures !ok ==>
                && now.cell.pc == Finish && now.cell.outcome == RetryLater
                && now.cell.mem ==
                   Machine.MarkReady(
                     Machine.MarkHealthy(old(now).cell.mem, False, HealthCheckFailed), False, HealthCheckFailed)
    {
      hide Step, Allowed;
      Interfere();
      ok := *;
      ghost var awaited := set m | m in metas;
      WaitStep(noCross, manager.key, now, awaited, ok);
      Advance(Wait(awaited, ok));
    }
  }

  /** The copy after a reconciliation that succeeded. */
  function Succeeded(copy: LanguageModel, revision: string): LanguageModel {
    Machine.MarkReady(copy.(status := copy.status.(lastApplied := revision)), True, ReconciliationSucceeded)
  }

  /** Where `checkHealth` starts: the run is about to patch, or it is done because nothing was applied. */
  ghost predicate AtHealthCheck(c: Cell, copy: LanguageModel, revision: string) {
    c.artifact.revision == revision &&
    if Entries(copy.status) == [] then
      && c.pc == Finish && c.outcome == NextInterval
      && c.mem == Succeeded(copy.(status := copy.status.(healthy := None)), revision)
    else
      && c.pc == PatchChecking
      && c.mem == Machine.MarkHealthy(Machine.MarkReconciling(copy), Unknown, Progressing)
  }

  lemma HealthCheckStarts(c: Cell)
    ensures AtHealthCheck(CheckHealth(c), c.mem, c.artifact.revision)
  {
  }

  /** How a deletion leads on. */
  ghost predicate AfterDelete(c: Cell, d: Cell, ok: bool) {
    if c.pc == Machine.DeleteStale then
      if ok then AtHealthCheck(d, c.mem, c.artifact.revision)
      else d.pc == Finish && d.outcome == RetryLater && d.mem == Machine.MarkReady(c.mem, False, PruneFailed)
    else
      && d.pc == Finish
      && d.outcome == (if ok then NoRequeue else RequeueWithError)
      && d.mem == if ok then c.mem.(finalizer := false) else c.mem
  }

  lemma AfterDeleteStored(b: Cell, c: Cell, d: Cell, ok: bool)
    requires AfterDelete(c, d, ok)
    requires c == b.(stored := c.stored)
    ensures AfterDelete(b, d, ok)
  {
    hide AtHealthCheck;
  }

  lemma DeleteEffect(noCross: bool, k: NamespacedName, w: World, r: DeleteReply)
    requires w.cell.pc == Machine.DeleteStale || w.cell.pc == Machine.DeleteAll
    ensures
      var after := if w.cell.pc == Machine.DeleteStale then OnDeleteStale(k, w, r) else OnDeleteAll(k, w, r);
      var targets := if w.cell.pc == Machine.DeleteStale then w.cell.stale else FinalTargets(w.cell);
      && AfterDelete(w.cell, after.cell, r.DeletedAll?)
      && after.cell.stored == w.cell.stored
      && after.live == DeleteFrom(k, w.live, if r.DeletedAll? then targets else targets * r.part)
  {
    hide CheckHealth, AtHealthCheck, DeleteFrom, FinalTargets, Owned, Kept;
    var c := w.cell;
    HealthCheckStarts(c);
    CheckHealthFacts(c);
  }

  /** How a status patch leads on: to the next step of the reconciliation, or out of it. */
  ghost predicate AfterPatch(c: Cell, d: Cell, err: bool) {
    && d.artifact == c.artifact && d.objs == c.objs
    && if err then
         && d.pc == Finish && d.outcome == RetryLater
         && d.mem ==
            if c.pc == PatchChecking || c.pc == PatchHealthy then Machine.MarkReady(c.mem, False, HealthCheckFailed)
            else c.mem
       else
         match c.pc
         case PatchProgressing => d.pc == PatchAttempted &&
           d.mem == Machine.MarkReconciling(c.mem.(status := c.mem.status.(lastAttempted := c.artifact.revision)))
         case PatchAttempted => d.pc == Machine.GetClient && d.mem == c.mem
         case PatchDrift => d.pc == Machine.ApplyObjects && d.mem == c.mem
         case PatchChecking => d.pc == WaitHealthy && d.mem == c.mem
         case _ => d.pc == Finish && d.outcome == NextInterval && d.mem == Succeeded(c.mem, c.artifact.revision)
  }

  lemma PatchEffect(c: Cell, r: PatchReply)
    requires IsPatch(c.pc) && c.pc != Finish
    ensures AfterPatch(c, OnPatch(c, r), r != Patched)
  {
    hide Machine.MarkReconciling;
  }

  /** How a successful apply leads on: the copy has the new inventory. */
  ghost predicate AfterApplying(c: Cell, d: Cell, es: seq<ResourceRef>) {
    var copy := c.mem.(status := c.mem.status.(inventory := Some(es)));
    if !AllParse(Entries(c.mem.status)) || !AllParse(es) then
      d.pc == Finish && d.outcome == RetryLater && d.mem == Machine.MarkReady(copy, False, ReconciliationFailed)
    else if c.mem.spec.prune then
      && d.pc == DeleteStale && d.mem == copy && d.artifact == c.artifact
      && d.stale == MetaSet(Entries(c.mem.status)) - MetaSet(es)
    else
      AtHealthCheck(d, copy, c.artifact.revision)
  }

  lemma AfterApplyingStored(b: Cell, c: Cell, d: Cell, es: seq<ResourceRef>)
    requires AfterApplying(c, d, es)
    requires c == b.(stored := c.stored)
    ensures AfterApplying(b, d, es)
  {
    hide AtHealthCheck, AllParse, MetaSet;
  }

  lemma ApplyingEffect(c: Cell, es: seq<ResourceRef>)
    ensures AfterApplying(c, AfterApply(c, es), es)
  {
    hide AtHealthCheck, AllParse, MetaSet, CheckHealth;
    HealthCheckStarts(Record(c, es));
  }

  lemma ApplyEffect(noCross: bool, k: NamespacedName, w: World, r: ApplyReply)
    requires w.cell.pc == Machine.ApplyObjects
    requires r.Applied? ==> Reports(k, w.live, w.cell.objs, r.entries)
    ensures Allowed(k, w, Apply(r))
    ensures Step(noCross, k, w, Apply(r)) == OnApply(k, w, r)
    ensures OnApply(k, w, r).cell.stored == w.cell.stored
    ensures OnApply(k, w, r).live == match r
              case Applied(_) => ApplyTo(k, w.live, Desired(w.cell.objs))
              case ApplyFailed(part) => ApplyTo(k, w.live, Restrict(Desired(w.cell.objs), part))
    ensures r.Applied? ==> AfterApplying(w.cell, OnApply(k, w, r).cell, Refs(r.entries))
    ensures r.ApplyFailed? ==>
              && OnApply(k, w, r).cell.pc == Finish && OnApply(k, w, r).cell.outcome == RetryLater
              && OnApply(k, w, r).cell.mem == Machine.MarkReady(w.cell.mem, False, ReconciliationFailed)
  {
    hide AfterApply, AfterApplying, Refs, ApplyTo, Desired, Restrict, Owned, MetaSet;
    if r.Applied? {
      AfterApplyFacts(w.cell, Refs(r.entries));
      ApplyingEffect(w.cell, Refs(r.entries));
    }
  }

  /** Where `finalize` starts: there is something to delete, or only the finalizer is left to remove. */
  ghost predicate AtFinalization(c: Cell, lm: LanguageModel) {
    if lm.spec.prune && !lm.spec.suspend && lm.status.inventory.Some? then
      c.pc == Machine.CanImpersonate && c.mem == lm
    else
      c.pc == Finish && c.outcome == NoRequeue && c.mem == lm.(finalizer := false)
  }

  /** How reading the object leads on. */
  ghost predicate AfterGet(noCross: bool, k: NamespacedName, lm: LanguageModel, c: Cell) {
    if lm.deleting then
      AtFinalization(c, lm)
    else if !lm.finalizer then
      c.pc == Finish && c.outcome == Requeue && c.mem == lm.(finalizer := true)
    else if lm.spec.suspend then
      c.pc == Finish && c.outcome == NoRequeue && c.mem == lm
    else
      match Resolve(noCross, k, lm.spec.sourceRef)
      case Denied => AfterSource(lm, c, Refused)
      case Unsupported => AfterSource(lm, c, WrongKind)
      case Lookup(_, _) => c.pc == Machine.GetSource && c.mem == lm
  }

  lemma GetEffect(noCross: bool, k: NamespacedName, w: World)
    ensures OnGet(noCross, k, w.cell).stored == w.cell.stored
    ensures w.cell.stored.None? ==>
              OnGet(noCross, k, w.cell).outcome == NoRequeue && OnGet(noCross, k, w.cell).pc == w.cell.pc
    ensures w.cell.stored.Some? ==> AfterGet(noCross, k, w.cell.stored.value, OnGet(noCross, k, w.cell))
  {
    hide Owned, Resolve;
  }

  /** What came of looking for the source. */
  datatype Fetched = Fetched(reply: SourceReply) | Refused | WrongKind

  lemma SourceEffect(c: Cell, r: SourceReply)
    ensures OnSource(c, r).stored == c.stored
    ensures AfterSource(c.mem, OnSource(c, r), Fetched(r))
  {
  }

  /** How looking for the source leads on. */
  ghost predicate AfterSource(copy: LanguageModel, c: Cell, f: Fetched) {
    match f
    case Refused => c.pc == Finish && c.outcome == RetryLater && c.mem == Machine.MarkReady(copy, False, AccessDenied)
    case Fetched(HasArtifact(a)) =>
      && c.pc == PatchProgressing && c.artifact == a
      && c.mem == Machine.MarkReconciling(Machine.MarkReady(copy, Unknown, Progressing))
    case _ =>
      && c.pc == Finish && c.mem == Machine.MarkReady(copy, False, ArtifactFailed)
      && c.outcome == if f == WrongKind || f == Fetched(SourceError) then RequeueWithError else RetryLater
  }

  // ---------- the controller ----------

  /** The run is at `pc` with the copy as its own. */
  ghost predicate At(env: Environment, obj: LanguageModelObject, pc: Pc)
    reads env, env.manager, obj, obj.inventory
  {
    env.Valid() && env.now.cell.pc == pc && env.now.cell.mem == obj.Value()
  }

  /** The run has reached its deferred end, and will ask for `outcome`. */
  ghost predicate Ending(env: Environment, obj: LanguageModelObject, outcome: Outcome)
    reads env, env.manager, obj, obj.inventory
  {
    At(env, obj, Finish) && env.now.cell.outcome == outcome
  }

  /** Listing an inventory gives what its finalization deletes. */
  lemma ListedMetas(refs: seq<ResourceRef>, listed: seq<Unstructured>)
    requires AllParse(refs) && multiset(listed) == multiset(Objects(refs))
    ensures (set o | o in listed :: o.meta) == MetaSet(refs)
  {
    forall o ensures o in listed <==> o in Objects(refs) {
      assert o in multiset(listed) <==> o in multiset(Objects(refs));
    }
    forall m ensures m in (set o | o in listed :: o.meta) <==> m in MetaSet(refs) {
      if m in MetaSet(refs) {
        var i :| 0 <= i < |refs| && Parse(refs[i].id).value == m;
        assert Objects(refs)[i] in listed && Objects(refs)[i].meta == m;
      }
    }
  }

  /** The recorded objects, or none if some entry does not parse: the error is ignored. */
  method RecordedObjects(
      inv: ResourceInventory, leq: (Unstructured, Unstructured) -> bool)
    returns (objects: seq<Unstructured>)
    requires TotalPreorder(leq)
    ensures (set o | o in objects :: o.meta) == if AllParse(inv.entries) then MetaSet(inv.entries) else {}
  {
    hide AllParse, MetaSet, Sorted, TotalPreorder, Objects;
    var listed := List(inv, leq);
    objects := [];
    if listed.Success? {
      objects := listed.value;
      ListedMetas(inv.entries, objects);
    }
  }

  /** Deleting everything recorded, if the account to impersonate is still there. */
  method DeleteRecorded(env: Environment, ghost lm: LanguageModel, objects: seq<Unstructured>) returns (err: bool)
    requires env.Valid() && env.now.cell.pc == Machine.CanImpersonate && env.now.cell.mem == lm
    requires (set o | o in objects :: o.meta) == FinalTargets(env.now.cell)
    modifies env, env.manager`live
    ensures env.Valid() && env.Continues() && env.now.cell.pc == Finish
    ensures env.now.cell.outcome == if err then RequeueWithError else NoRequeue
    ensures env.now.cell.mem == if err then lm else lm.(finalizer := false)
  {
    hide Turns, Step, Allowed, IsRun, Initial, OnClient, MetaSet, AllParse, AtHealthCheck;
    var possible := env.CanImpersonate();
    if !possible {
      return false;
    }
    var ok := env.GetClient();
    if !ok {
      return true;
    }
    ok := env.DeleteObjects(objects);
    err := !ok;
  }

  method FinalizeObject(env: Environment, obj: LanguageModelObject, leq: (Unstructured, Unstructured) -> bool)
    returns (outcome: Outcome)
    requires env.Valid() && AtFinalization(env.now.cell, obj.Value()) && TotalPreorder(leq)
    modifies env, env.manager`live, obj`finalizer
    ensures env.Continues() && Ending(env, obj, outcome)
  {
    hide Turns, Step, Allowed, IsRun, Initial, MetaSet, AllParse, TotalPreorder;
    if obj.spec.prune && !obj.spec.suspend && obj.inventory != null {
      var objects := RecordedObjects(obj.inventory, leq);
      var err := DeleteRecorded(env, obj.Value(), objects);
      if err {
        return RequeueWithError;
      }
    }
    obj.finalizer := false;
    outcome := NoRequeue;
  }

  /** All but the LanguageModel itself, in order. */
  function Others(k: NamespacedName, metas: seq<ObjMetadata>): seq<ObjMetadata> {
    if metas == [] then []
    else
      var last := metas[|metas| - 1];
      Others(k, metas[..|metas| - 1]) + if IsItself(k, last) then [] else [last]
  }

  /** The guard drops nothing of what a LanguageModel builds. */
  lemma {:induction false} OthersIsAll(k: NamespacedName, metas: seq<ObjMetadata>)
    requires forall m :: m in metas ==> m in Family(k)
    ensures Others(k, metas) == metas
  {
    if metas != [] {
      var n := |metas| - 1;
      assert metas == metas[..n] + [metas[n]];
      OthersIsAll(k, metas[..n]);
      assert metas[n] in Family(k);
      assert |LANGUAGE_MODEL_KIND| == 13;
      assert |"Deployment"| == 10 && |"Service"| == 7 && |"PersistentVolumeClaim"| == 21;
    }
  }

  /** What health checking waits for. */
  method ToCheck(k: NamespacedName, metas: seq<ObjMetadata>) returns (toCheck: seq<ObjMetadata>)
    ensures toCheck == Others(k, metas)
    ensures forall m :: m in toCheck <==> m in metas && !IsItself(k, m)
  {
    toCheck := [];
    for i := 0 to |metas|
      invariant toCheck == Others(k, metas[..i])
      invariant forall m :: m in toCheck <==> m in metas[..i] && !IsItself(k, m)
    {
      assert metas[..i + 1][..i] == metas[..i];
      if !IsItself(k, metas[i]) {
        toCheck := toCheck + [metas[i]];
      }
    }
    assert metas[..|metas|] == metas;
  }

  method CheckObjectHealth(env: Environment, obj: LanguageModelObject, revision: string, metas: seq<ObjMetadata>)
    returns (err: bool)
    requires env.Valid() && |metas| == |Entries(obj.StatusValue())|
    requires (set m | m in metas) == MetaSet(Entries(obj.StatusValue()))
    requires AtHealthCheck(env.now.cell, obj.Value(), revision)
    modifies env, env.manager`live, obj`ready, obj`reconciling, obj`healthy
    ensures env.Valid() && env.Continues() && env.now.cell.pc == Finish
    ensures env.now.cell.outcome == if err then RetryLater else NextInterval
    ensures env.now.cell.mem ==
            if err then Machine.MarkReady(obj.Value(), False, HealthCheckFailed) else Succeeded(obj.Value(), revision)
  {
    if |metas| == 0 {
      obj.healthy := None;
      return false;
    }
    var toCheck := ToCheck(env.manager.key, metas);
    err := AwaitHealth(env, obj, revision, toCheck);
  }

  lemma MarksCommute(copy: LanguageModel, s: ConditionStatus, r: Reason)
    ensures Machine.MarkReady(Machine.MarkHealthy(Machine.MarkReady(copy, s, r), s, r), s, r) ==
            Machine.MarkReady(Machine.MarkHealthy(copy, s, r), s, r)
  {
  }

  lemma MarksKeepAwaited(k: NamespacedName, copy: LanguageModel)
    ensures Awaited(k, Machine.MarkHealthy(Machine.MarkReconciling(copy), Unknown, Progressing)) == Awaited(k, copy)
  {
  }

  method AwaitHealth(env: Environment, obj: LanguageModelObject, revision: string, toCheck: seq<ObjMetadata>)
    returns (err: bool)
    requires (set m | m in toCheck) == Awaited(env.manager.key, obj.Value())
    requires env.Valid() && env.now.cell.pc == PatchChecking && env.now.cell.artifact.revision == revision
    requires env.now.cell.mem == Machine.MarkHealthy(Machine.MarkReconciling(obj.Value()), Unknown, Progressing)
    modifies env, env.manager`live, obj`ready, obj`reconciling, obj`healthy
    ensures env.Valid() && env.Continues() && env.now.cell.pc == Finish
    ensures env.now.cell.outcome == if err then RetryLater else NextInterval
    ensures env.now.cell.mem ==
            if err then Machine.MarkReady(obj.Value(), False, HealthCheckFailed) else Succeeded(obj.Value(), revision)
  {
    hide Turns, Step, Allowed, IsRun, Initial, Machine.MarkHealthy, Machine.MarkReconciling, Machine.MarkReady;
    hide LanguageModelObject.Value, Succeeded, Awaited;
    MarksKeepAwaited(env.manager.key, obj.Value());
    obj.MarkReconciling();
    obj.MarkHealthy(Unknown, Progressing);
    err := env.PatchObject(obj);
    if err {
      return true;
    }
    var ok := env.WaitForSet(toCheck);
    if !ok {
      MarksCommute(obj.Value(), False, HealthCheckFailed);
      obj.MarkReady(False, HealthCheckFailed);
      obj.MarkHealthy(False, HealthCheckFailed);
      return true;
    }
    obj.MarkHealthy(True, Reason.Succeeded);
    err := env.PatchObject(obj);
  }

  method TakeSnapshot(obj: LanguageModelObject, snapshot: ResourceInventory)
    requires snapshot.entries == []
    modifies snapshot
    ensures obj.inventory != snapshot ==> snapshot.entries == Entries(obj.StatusValue())
  {
    if obj.inventory != null {
      obj.inventory.DeepCopyInto(snapshot);
    }
  }

  method ReportAttempt(env: Environment, obj: LanguageModelObject, artifact: Artifact) returns (err: bool)
    requires AboutToAttempt(env, obj, artifact)
    modifies env, env.manager`live, obj`reconciling, obj`lastAttempted
    ensures env.Continues()
    ensures err ==> Ending(env, obj, RetryLater)
    ensures !err ==> At(env, obj, Machine.GetClient) && env.now.cell.artifact == artifact
  {
    hide Turns, Step, Allowed, IsRun, Initial, Machine.MarkReconciling;
    obj.lastAttempted := artifact.revision;
    obj.MarkReconciling();
    err := env.PatchObject(obj);
  }

  method ReportStart(env: Environment, obj: LanguageModelObject, artifact: Artifact) returns (err: bool)
    requires env.Valid() && AfterSource(obj.Value(), env.now.cell, Fetched(HasArtifact(artifact)))
    modifies env, env.manager`live, obj`ready, obj`reconciling
    ensures env.Continues()
    ensures err ==> Ending(env, obj, RetryLater)
    ensures !err ==> AboutToAttempt(env, obj, artifact)
  {
    hide Turns, Step, Allowed, IsRun, Initial, Machine.MarkReady, Machine.MarkReconciling;
    obj.MarkReady(Unknown, Progressing);
    obj.MarkReconciling();
    err := env.PatchObject(obj);
  }

  /** The run is about to patch the revision it attempts. */
  ghost predicate AboutToAttempt(env: Environment, obj: LanguageModelObject, artifact: Artifact)
    reads env, env.manager, obj, obj.inventory
  {
    && env.Valid() && env.now.cell.pc == PatchAttempted && env.now.cell.artifact == artifact
    && env.now.cell.mem ==
       Machine.MarkReconciling(obj.Value().(status := obj.StatusValue().(lastAttempted := artifact.revision)))
  }

  /** The first part of `reconcile`: reporting progress, with a snapshot of the inventory. */
  method ReportProgress(env: Environment, obj: LanguageModelObject, artifact: Artifact)
    returns (err: bool, oldInventory: ResourceInventory)
    requires env.Valid() && AfterSource(obj.Value(), env.now.cell, Fetched(HasArtifact(artifact)))
    modifies env, env.manager`live, obj`ready, obj`reconciling, obj`lastAttempted
    ensures env.Continues() && fresh(oldInventory)
    ensures err ==> Ending(env, obj, RetryLater)
    ensures !err ==>
              && At(env, obj, Machine.GetClient) && env.now.cell.artifact == artifact
              && oldInventory.entries == Entries(obj.StatusValue())
  {
    hide Turns, Step, Allowed, IsRun, Initial, AfterSource, AboutToAttempt, At, Ending;
    oldInventory := new ResourceInventory();
    err := ReportStart(env, obj, artifact);
    if err {
      return;
    }
    TakeSnapshot(obj, oldInventory);
    err := ReportAttempt(env, obj, artifact);
  }

  /** The second part: building the objects with an impersonating client at hand. */
  method BuildObjects(env: Environment, obj: LanguageModelObject, artifact: Artifact) returns (r: Option<seq<Object>>)
    requires At(env, obj, Machine.GetClient) && env.now.cell.artifact == artifact
    modifies env, env.manager`live, obj`ready, obj`reconciling
    ensures env.Continues() && obj.StatusValue().inventory == old(obj.StatusValue().inventory)
    ensures r.None? ==> Ending(env, obj, RetryLater)
    ensures r.Some? ==>
              && At(env, obj, Machine.ApplyObjects)
              && env.now.cell.artifact == artifact && env.now.cell.objs == r.value
              && Build(env.manager.key, obj.spec, artifact) == Success(r.value)
  {
    hide Turns, Step, Allowed, IsRun, Initial, Build, Machine.MarkReady, Machine.MarkReconciling;
    var ok := env.GetClient();
    if !ok {
      obj.MarkReady(False, ReconciliationFailed);
      return None;
    }
    var built := Build(env.manager.key, obj.spec, artifact);
    if built.Failure? {
      obj.MarkReady(False, ReconciliationFailed);
      return None;
    }
    obj.MarkReconciling();
    var err := env.PatchObject(obj);
    if err {
      return None;
    }
    r := Some(built.value);
  }

  /** Recording what was applied, and finding what the new inventory no longer has. */
  method RecordChanges(
      obj: LanguageModelObject, changeSet: seq<ChangeSetEntry>, oldInventory: ResourceInventory,
      leqStale: (Unstructured, Unstructured) -> bool)
    returns (stale: Result<seq<Unstructured>>)
    requires TotalPreorder(leqStale)
    modifies obj`inventory
    ensures obj.StatusValue() == old(obj.StatusValue()).(inventory := Some(Refs(changeSet)))
    ensures stale.Success? <==> AllParse(oldInventory.entries) && AllParse(Refs(changeSet))
    ensures stale.Success? ==>
              (set o | o in stale.value :: o.meta) == MetaSet(oldInventory.entries) - MetaSet(Refs(changeSet))
  {
    hide AllParse, MetaSet, Refs, Sorted, DistinctMetas, TotalPreorder, VersionOf, Print;
    var newInventory := new ResourceInventory();
    AddChangeSet(newInventory, Some(changeSet));
    assert newInventory.entries == Refs(changeSet);
    obj.inventory := newInventory;
    stale := Diff(oldInventory, newInventory, leqStale);
  }

  /** What was reported for objects of the family is recorded under the same identities. */
  lemma EntriesRecorded(k: NamespacedName, objs: seq<Object>, es: seq<ChangeSetEntry>)
    requires ValidName(k) && Ids(objs) <= Family(k) && (set e | e in es :: e.meta) == Ids(objs)
    ensures (set m | m in ToObjMetadataSet(es)) == MetaSet(Refs(es))
  {
    FamilyWellFormed(k);
    hide Ids, Family;
    forall e | e in es ensures WellFormed(e.meta) {
      assert e.meta in set e | e in es :: e.meta;
    }
    RecordedRoundTrip(es);
    var metas := ToObjMetadataSet(es);
    forall m ensures m in metas <==> m in (set e | e in es :: e.meta) {
      if e :| e in es && e.meta == m {
        var i :| 0 <= i < |es| && es[i] == e;
        assert metas[i] == m;
      }
    }
  }

  /** The third part: applying, and recording what was applied. */
  method ApplyAndRecord(
      env: Environment, obj: LanguageModelObject, artifact: Artifact,
      objects: seq<Object>, oldInventory: ResourceInventory,
      leq: (Object, Object) -> bool, leqStale: (Unstructured, Unstructured) -> bool)
    returns (r: Option<seq<Unstructured>>, metas: seq<ObjMetadata>)
    requires At(env, obj, Machine.ApplyObjects) && env.now.cell.artifact == artifact && env.now.cell.objs == objects
    requires DistinctIds(objects) && TotalPreorder(leq) && TotalPreorder(leqStale)
    requires Ids(objects) <= Family(env.manager.key)
    requires oldInventory.entries == Entries(obj.StatusValue())
    modifies env, env.manager, obj
    ensures env.Continues()
    ensures r.None? ==> Ending(env, obj, RetryLater)
    ensures r.Some? ==> env.Valid() && ReadyToPrune(env.now.cell, obj.Value(), artifact.revision, r.value)
    ensures r.Some? ==> |metas| == |Entries(obj.StatusValue())|
    ensures r.Some? ==> (set m | m in metas) == MetaSet(Entries(obj.StatusValue()))
  {
    hide Turns, Step, Allowed, IsRun, Initial, AtHealthCheck, AllParse, MetaSet, TotalPreorder, DistinctIds, Drifted;
    hide Machine.MarkReady;
    var applied := env.ApplyAll(objects, leq);
    if applied.None? {
      obj.MarkReady(False, ReconciliationFailed);
      return None, [];
    }
    var stale := RecordChanges(obj, applied.value.1, oldInventory, leqStale);
    if stale.Failure? {
      obj.MarkReady(False, ReconciliationFailed);
      return None, [];
    }
    r := Some(stale.value);
    metas := ToObjMetadataSet(applied.value.1);
    EntriesRecorded(env.manager.key, objects, applied.value.1);
  }

  /** Where pruning starts, with these objects found stale. */
  ghost predicate ReadyToPrune(c: Cell, copy: LanguageModel, revision: string, stale: seq<Unstructured>) {
    if copy.spec.prune then
      && c.pc == DeleteStale && c.mem == copy && c.artifact.revision == revision
      && c.stale == set o | o in stale :: o.meta
    else
      AtHealthCheck(c, copy, revision)
  }

  method Prune(
      env: Environment, obj: LanguageModelObject, revision: string, objects: seq<Unstructured>)
    returns (err: bool)
    requires env.Valid() && ReadyToPrune(env.now.cell, obj.Value(), revision, objects)
    modifies env, env.manager`live
    ensures env.Valid() && env.Continues()
    ensures !err ==> AtHealthCheck(env.now.cell, obj.Value(), revision)
    ensures err ==>
              && env.now.cell.pc == Finish && env.now.cell.outcome == RetryLater
              && env.now.cell.mem == Machine.MarkReady(obj.Value(), False, PruneFailed)
  {
    hide Turns, IsRun, Initial, AtHealthCheck, Machine.MarkReady;
    if !obj.spec.prune {
      return false;
    }
    var ok := env.DeleteObjects(objects);
    err := !ok;
  }

  /** The last part: pruning, checking health, and reporting success. */
  method PruneAndCheck(
      env: Environment, obj: LanguageModelObject, revision: string, stale: seq<Unstructured>,
      metas: seq<ObjMetadata>)
    returns (err: bool)
    requires env.Valid() && ReadyToPrune(env.now.cell, obj.Value(), revision, stale)
    requires |metas| == |Entries(obj.StatusValue())| && (set m | m in metas) == MetaSet(Entries(obj.StatusValue()))
    modifies env, env.manager`live, obj`ready, obj`reconciling, obj`healthy, obj`lastApplied
    ensures env.Continues() && Ending(env, obj, if err then RetryLater else NextInterval)
  {
    hide Turns, IsRun, Initial, AtHealthCheck, ReadyToPrune, Machine.MarkReady;
    err := Prune(env, obj, revision, stale);
    if err {
      obj.MarkReady(False, PruneFailed);
      return true;
    }
    err := CheckObjectHealth(env, obj, revision, metas);
    if err {
      obj.MarkReady(False, HealthCheckFailed);
      return true;
    }
    obj.lastApplied := revision;
    obj.MarkReady(True, ReconciliationSucceeded);
  }

  /** `reconcile`. */
  method ReconcileArtifact(
      env: Environment, obj: LanguageModelObject, artifact: Artifact,
      leq: (Object, Object) -> bool, leqStale: (Unstructured, Unstructured) -> bool)
    returns (err: bool)
    requires env.Valid() && AfterSource(obj.Value(), env.now.cell, Fetched(HasArtifact(artifact)))
    requires TotalPreorder(leq) && TotalPreorder(leqStale)
    modifies env, env.manager, obj
    ensures env.Continues() && Ending(env, obj, if err then RetryLater else NextInterval)
  {
    hide Turns, Step, Allowed, IsRun, Initial, AfterSource, ReadyToPrune, Build, TotalPreorder, DistinctIds, Family;
    hide Ids;
    hide LanguageModelObject.Value, LanguageModelObject.StatusValue;
    var oldInventory;
    err, oldInventory := ReportProgress(env, obj, artifact);
    if err {
      return true;
    }
    var objects := BuildObjects(env, obj, artifact);
    if objects.None? {
      return true;
    }
    BuildFacts(env.manager.key, obj.spec, artifact);
    var stale, metas := ApplyAndRecord(env, obj, artifact, objects.value, oldInventory, leq, leqStale);
    if stale.None? {
      return true;
    }
    err := PruneAndCheck(env, obj, artifact.revision, stale.value, metas);
  }

  /** `getSource`, and what `Reconcile` makes of it. */
  method FindSource(env: Environment, obj: LanguageModelObject) returns (f: Fetched)
    requires env.Valid()
    requires
      match Resolve(env.noCross, env.manager.key, obj.spec.sourceRef)
      case Denied => AfterSource(obj.Value(), env.now.cell, Refused)
      case Unsupported => AfterSource(obj.Value(), env.now.cell, WrongKind)
      case Lookup(_, _) => At(env, obj, Machine.GetSource)
    modifies env, env.manager`live
    ensures env.Valid() && env.Continues()
    ensures AfterSource(obj.Value(), env.now.cell, f)
    ensures f.Fetched? <==> Resolve(env.noCross, env.manager.key, obj.spec.sourceRef).Lookup?
  {
    hide Turns, Step, Allowed, IsRun, Initial, AfterSource;
    var sourceNamespace := env.manager.key.namespace;
    if obj.spec.sourceRef.namespace != "" {
      sourceNamespace := obj.spec.sourceRef.namespace;
    }
    if env.noCross && sourceNamespace != env.manager.key.namespace {
      return Refused;
    }
    if obj.spec.sourceRef.kind in KINDS {
      LookupByKind(env.noCross, env.manager.key, obj.spec.sourceRef);
      var reply := env.ReadSource(obj.spec.sourceRef.kind, NamespacedName(sourceNamespace, obj.spec.sourceRef.name));
      f := Fetched(reply);
    } else {
      f := WrongKind;
    }
  }

  /** The body of `Reconcile`, between reading the object and the deferred patch. */
  method ReconcileObject(
      env: Environment, obj: LanguageModelObject,
      leq: (Object, Object) -> bool, leqStale: (Unstructured, Unstructured) -> bool)
    returns (outcome: Outcome)
    requires env.Valid() && AfterGet(env.noCross, env.manager.key, obj.Value(), env.now.cell)
    requires TotalPreorder(leq) && TotalPreorder(leqStale)
    modifies env, env.manager, obj
    ensures env.Continues() && Ending(env, obj, outcome)
  {
    hide Turns, Step, Allowed, IsRun, Initial, Resolve, AtFinalization, TotalPreorder, Machine.MarkReady;
    hide Machine.MarkReconciling;
    if obj.deleting {
      outcome := FinalizeObject(env, obj, leqStale);
      return;
    }
    if !obj.finalizer {
      obj.finalizer := true;
      return Requeue;
    }
    if obj.spec.suspend {
      return NoRequeue;
    }
    var f := FindSource(env, obj);
    match f
    case Refused =>
      obj.MarkReady(False, AccessDenied);
      outcome := RetryLater;
    case WrongKind =>
      obj.MarkReady(False, ArtifactFailed);
      outcome := RequeueWithError;
    case Fetched(SourceError) =>
      obj.MarkReady(False, ArtifactFailed);
      outcome := RequeueWithError;
    case Fetched(HasArtifact(artifact)) =>
      var err := ReconcileArtifact(env, obj, artifact, leq, leqStale);
      outcome := if err then RetryLater else NextInterval;
    case Fetched(_) =>
      obj.MarkReady(False, ArtifactFailed);
      outcome := RetryLater;
  }

  method FinalizeObjectStatus(env: Environment, obj: LanguageModelObject) returns (err: bool)
    requires At(env, obj, Finish)
    modifies env, env.manager`live, obj`reconciling, obj`observedGeneration, obj`lastHandled
    ensures env.Valid() && env.Continues() && env.now.cell.pc == Idle
    ensures env.now.cell.outcome == if err then RequeueWithError else old(env.now.cell.outcome)
  {
    hide Turns, Step, Allowed, IsRun, Initial;
    if obj.requested.Some? {
      obj.lastHandled := obj.requested.value;
    }
    if obj.ready.Some? && obj.ready.value.status == True {
      obj.reconciling := None;
      obj.observedGeneration := obj.generation;
    }
    if obj.ready.Some? && obj.ready.value.status == False && obj.reconciling.Some? {
      var rc := obj.reconciling.value;
      obj.reconciling := Some(rc.(reason := ProgressingWithRetry));
    }
    err := env.PatchFinally(obj);
  }

  /**
   One Reconcile call, from any state between two calls. The run of the machine
   goes on by exactly one call, without a crash, and ends as the machine says;
   so what holds of every run holds of the object and the cluster left behind:
   the status is honest, an owned object that is not recorded was abandoned by
   some step of the run, every wait was for exactly the objects built and
   recorded by then, and with references to other namespaces blocked no source
   of another namespace was read.
   */
  method Reconcile(env: Environment, leq: (Object, Object) -> bool, leqStale: (Unstructured, Unstructured) -> bool)
    returns (outcome: Outcome)
    requires env.Valid() && env.now.cell.pc == Idle
    requires TotalPreorder(leq) && TotalPreorder(leqStale)
    modifies env, env.manager
    ensures env.Valid() && old(env.labels) <= env.labels && env.turns == old(env.turns) + 1
    ensures env.now.cell.pc == Idle && env.now.cell.outcome == outcome
    ensures env.stored.Some? ==> HonestStatus(env.stored.value.status)
    ensures forall m :: m in Owned(env.manager.key, env.manager.live) && m !in RecordedIn(env.stored) ==>
              exists i :: 0 <= i < |env.labels| && m in Abandoned(env.manager.key, env.worlds[i], env.labels[i])
    ensures forall i | 0 <= i < |env.labels| && env.labels[i].Wait? ::
              env.labels[i].awaited == Ids(env.worlds[i].cell.objs) == RecordedIn(env.worlds[i].cell.stored)
    ensures env.noCross ==> forall i | 0 <= i < |env.labels| && env.labels[i].SourceIs? ::
                env.labels[i].from.namespace == env.manager.key.namespace
  {
    hide Turns, Step, Allowed, AfterGet, TotalPreorder;
    var o, err := env.Get();
    if err {
      outcome := RequeueWithError;
    } else if o.None? {
      outcome := NoRequeue;
    } else {
      var obj := new LanguageModelObject(o.value);
      outcome := ReconcileObject(env, obj, leq, leqStale);
      err := FinalizeObjectStatus(env, obj);
      if err {
        outcome := RequeueWithError;
      }
    }
    RunSoFar(env.noCross, env.manager.key, env.worlds, env.labels);
  }

  /** What the theorems about runs say at the end of a call. */
  lemma RunSoFar(noCross: bool, k: NamespacedName, ws: seq<World>, ls: seq<Label>)
    requires IsRunFromStart(noCross, k, ws, ls) && ws[|ls|].cell.pc == Idle
    ensures
      var now := ws[|ls|];
      && (now.cell.stored.Some? ==> HonestStatus(now.cell.stored.value.status))
      && (forall m :: m in Owned(k, now.live) && m !in RecordedIn(now.cell.stored) ==>
            exists i :: 0 <= i < |ls| && m in Abandoned(k, ws[i], ls[i]))
    ensures forall i | 0 <= i < |ls| && ls[i].Wait? ::
              ls[i].awaited == Ids(ws[i].cell.objs) == RecordedIn(ws[i].cell.stored)
    ensures noCross ==> forall i | 0 <= i < |ls| && ls[i].SourceIs? :: ls[i].from.namespace == k.namespace
  {
    ReachableIsGood(noCross, k, ws, ls);
    GoodAtRest(k, ws[|ls|]);
    hide Abandoned, Initial, Good, Step, Allowed, Ids;
    var now := ws[|ls|];
    forall m | m in Owned(k, now.live) && m !in RecordedIn(now.cell.stored)
      ensures exists i :: 0 <= i < |ls| && m in Abandoned(k, ws[i], ls[i])
    {
      var i := OrphansHaveACause(noCross, k, ws, ls, m);
    }
    forall i | 0 <= i < |ls| && ls[i].Wait?
      ensures ls[i].awaited == Ids(ws[i].cell.objs) == RecordedIn(ws[i].cell.stored)
    {
      Calls.WaitsForEverything(noCross, k, ws, ls, i);
    }
    forall i | 0 <= i < |ls| && ls[i].SourceIs? ensures noCross ==> ls[i].from.namespace == k.namespace {
      Calls.ReadsItsSource(noCross, k, ws, ls, i);
    }
  }

  lemma GoodAtRest(k: NamespacedName, w: World)
    requires Good(k, w) && w.cell.pc == Idle
    ensures w.cell.stored.Some? ==> HonestStatus(w.cell.stored.value.status)
  {
    hide Family, MetaSet, Owned;
  }
}
