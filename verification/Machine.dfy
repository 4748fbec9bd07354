/**
 One LanguageModel under its controller, as a machine whose steps are the
 replies to the controller's external calls. Between two calls everything the
 controller does is deterministic, so a run is determined by its labels. Users
 and other controllers take their own steps at any moment, and the controller
 can crash at any moment.
 */
module Machine {
  import opened Wrappers
  import opened ObjectIds
  import opened ChangeSets
  import opened Inventory
  import opened Api
  import opened Sources
  import opened Manifests
  import opened Cluster

  /** The external call the controller is about to make, or Idle between two Reconcile calls. */
  datatype Pc =
    | Idle
    | GetSource
    | PatchProgressing
    | PatchAttempted
    | GetClient
    | PatchDrift
    | ApplyObjects
    | DeleteStale
    | PatchChecking
    | WaitHealthy
    | PatchHealthy
    | CanImpersonate
    | FinalClient
    | DeleteAll
    | Finish

  /** What a Reconcile call asks of the work queue. */
  datatype Outcome = NoRequeue | Requeue | RequeueWithError | RetryLater | NextInterval

  /**
   The object in the API server (`stored`), and the run in progress: the
   controller's copy of the object (`mem`), the artifact, the built objects, and
   the identities found stale.
   */
  datatype Cell = Cell(
    stored: Option<LanguageModel>,
    pc: Pc,
    mem: LanguageModel,
    artifact: Artifact,
    objs: seq<Object>,
    stale: set<ObjMetadata>,
    outcome: Outcome)

  datatype World = World(cell: Cell, live: LiveObjects)

  datatype SourceReply = NotFound | SourceError | NoArtifact | HasArtifact(artifact: Artifact)

  /** A patch is atomic; it may also be persisted although the caller sees an error. */
  datatype PatchReply = Patched | NotPatched | PatchedWithError

  datatype ApplyReply = Applied(entries: seq<ChangeSetEntry>) | ApplyFailed(part: set<ObjMetadata>)

  datatype DeleteReply = DeletedAll | DeleteFailed(part: set<ObjMetadata>)

  datatype Label =
    // replies to the controller's calls
    | Get
    | GetFailed
    | SourceIs(kind: string, from: NamespacedName, source: SourceReply)
    | Patch(patch: PatchReply)
    | Client(ok: bool)
    | Apply(apply: ApplyReply)
    | Delete(delete: DeleteReply)
    | Wait(awaited: set<ObjMetadata>, healthy: bool)
    | Impersonation(possible: bool)
    | Crash
    // everybody else
    | Created(spec: Spec)
    | Edited(spec: Spec)
    | Requested(at: string)
    | DeletionRequested
    | Outside(live: LiveObjects)

  const NOBODY := LanguageModel(
    Spec(SourceReference("", "", ""), Engine("", Resources.Requirements(map[], map[]), ""), "", false, false),
    0, None, false, false, INITIAL_STATUS)

  const INITIAL_CELL := Cell(None, Idle, NOBODY, Artifact("", "", map[]), [], {}, NoRequeue)

  // ---------- conditions ----------

  function MarkReady(lm: LanguageModel, s: ConditionStatus, r: Reason): LanguageModel {
    lm.(status := lm.status.(ready := Some(Condition(s, r))))
  }

  function MarkReconciling(lm: LanguageModel): LanguageModel {
    lm.(status := lm.status.(reconciling := Some(Condition(True, Progressing))))
  }

  function MarkHealthy(lm: LanguageModel, s: ConditionStatus, r: Reason): LanguageModel {
    lm.(status := lm.status.(healthy := Some(Condition(s, r))))
  }

  /** The last touches before the final patch. */
  function FinalizeStatus(lm: LanguageModel): LanguageModel {
    var s := if lm.requested.Some? then lm.status.(lastHandled := lm.requested.value) else lm.status;
    if IsReady(s) then
      lm.(status := s.(reconciling := None, observedGeneration := lm.generation))
    else if s.ready.Some? && s.ready.value.status == False && s.reconciling.Some? then
      lm.(status := s.(reconciling := Some(s.reconciling.value.(reason := ProgressingWithRetry))))
    else
      lm.(status := s)
  }

  // ---------- inventories ----------

  function Recorded(lm: LanguageModel): set<ObjMetadata> {
    MetaSet(Entries(lm.status))
  }

  function RecordedIn(o: Option<LanguageModel>): set<ObjMetadata> {
    if o.Some? then Recorded(o.value) else {}
  }

  // ---------- steps of the controller ----------

  /** Leaving a reconciliation with an error: Ready is False and there will be a retry. */
  function Fail(c: Cell, r: Reason): Cell {
    c.(mem := MarkReady(c.mem, False, r), pc := Finish, outcome := RetryLater)
  }

  function Succeed(c: Cell): Cell {
    var mem := c.mem.(status := c.mem.status.(lastApplied := c.artifact.revision));
    c.(mem := MarkReady(mem, True, ReconciliationSucceeded), pc := Finish, outcome := NextInterval)
  }

  function RemoveFinalizer(c: Cell): Cell {
    c.(mem := c.mem.(finalizer := false), pc := Finish, outcome := NoRequeue)
  }

  function OnGet(noCross: bool, k: NamespacedName, c: Cell): Cell {
    match c.stored
    case None => c.(outcome := NoRequeue)
    case Some(lm) =>
      var c := c.(mem := lm);
      if lm.deleting then
        if lm.spec.prune && !lm.spec.suspend && lm.status.inventory.Some? then
          c.(pc := CanImpersonate)
        else
          RemoveFinalizer(c)
      else if !lm.finalizer then
        c.(mem := lm.(finalizer := true), pc := Finish, outcome := Requeue)
      else if lm.spec.suspend then
        c.(pc := Finish, outcome := NoRequeue)
      else
        match Resolve(noCross, k, lm.spec.sourceRef)
        case Denied => Fail(c, AccessDenied)
        case Unsupported => Fail(c, ArtifactFailed).(outcome := RequeueWithError)
        case Lookup(_, _) => c.(pc := GetSource)
  }

  function OnSource(c: Cell, r: SourceReply): Cell {
    match r
    case NotFound => Fail(c, ArtifactFailed)
    case SourceError => Fail(c, ArtifactFailed).(outcome := RequeueWithError)
    case NoArtifact => Fail(c, ArtifactFailed)
    case HasArtifact(a) =>
      c.(artifact := a, mem := MarkReconciling(MarkReady(c.mem, Unknown, Progressing)), pc := PatchProgressing)
  }

  predicate Persists(r: PatchReply) {
    r != NotPatched
  }

  /** Writing finalizer and status; an object that is being deleted goes away with its finalizer. */
  function Store(c: Cell): Cell {
    match c.stored
    case None => c
    case Some(lm) =>
      if lm.deleting && !c.mem.finalizer then c.(stored := None)
      else c.(stored := Some(lm.(finalizer := c.mem.finalizer, status := c.mem.status)))
  }

  function OnPatch(c: Cell, r: PatchReply): Cell {
    var c := if Persists(r) then Store(c) else c;
    if r != Patched then
      if c.pc == PatchChecking || c.pc == PatchHealthy then Fail(c, HealthCheckFailed)
      else c.(pc := Finish, outcome := RetryLater)
    else
      match c.pc
      case PatchProgressing =>
        var mem := c.mem.(status := c.mem.status.(lastAttempted := c.artifact.revision));
        c.(mem := MarkReconciling(mem), pc := PatchAttempted)
      case PatchAttempted => c.(pc := GetClient)
      case PatchDrift => c.(pc := ApplyObjects)
      case PatchChecking => c.(pc := WaitHealthy)
      case _ => Succeed(c)
  }

  function OnClient(k: NamespacedName, c: Cell, ok: bool): Cell {
    if !ok then Fail(c, ReconciliationFailed)
    else
      match Build(k, c.mem.spec, c.artifact)
      case Failure(_) => Fail(c, ReconciliationFailed)
      case Success(objs) => c.(objs := objs, mem := MarkReconciling(c.mem), pc := PatchDrift)
  }

  /** Health checking what was applied, if anything was. */
  function CheckHealth(c: Cell): Cell {
    if Entries(c.mem.status) == [] then
      Succeed(c.(mem := c.mem.(status := c.mem.status.(healthy := None))))
    else
      c.(mem := MarkHealthy(MarkReconciling(c.mem), Unknown, Progressing), pc := PatchChecking)
  }

  function Record(c: Cell, entries: seq<ResourceRef>): Cell {
    c.(mem := c.mem.(status := c.mem.status.(inventory := Some(entries))))
  }

  /** Replacing the inventory, and finding what the new one no longer has. */
  function AfterApply(c: Cell, newEntries: seq<ResourceRef>): Cell {
    var oldEntries := Entries(c.mem.status);
    if !AllParse(oldEntries) || !AllParse(newEntries) then
      Fail(Record(c, newEntries), ReconciliationFailed)
    else if c.mem.spec.prune then
      Record(c, newEntries).(stale := MetaSet(oldEntries) - MetaSet(newEntries), pc := DeleteStale)
    else
      CheckHealth(Record(c, newEntries))
  }

  function OnApply(k: NamespacedName, w: World, r: ApplyReply): World {
    var c := w.cell;
    match r
    case ApplyFailed(part) =>
      World(Fail(c, ReconciliationFailed), ApplyTo(k, w.live, Restrict(Desired(c.objs), part)))
    case Applied(entries) =>
      World(AfterApply(c, Refs(entries)), ApplyTo(k, w.live, Desired(c.objs)))
  }

  function OnDeleteStale(k: NamespacedName, w: World, r: DeleteReply): World {
    var c := w.cell;
    match r
    case DeleteFailed(part) => World(Fail(c, PruneFailed), DeleteFrom(k, w.live, c.stale * part))
    case DeletedAll => World(CheckHealth(c), DeleteFrom(k, w.live, c.stale))
  }

  const LANGUAGE_MODEL_KIND := "LanguageModel"

  predicate IsItself(k: NamespacedName, m: ObjMetadata) {
    m.kind == LANGUAGE_MODEL_KIND && m.name == k.name && m.namespace == k.namespace
  }

  /** What health checking waits for: everything recorded, but never for the LanguageModel itself. */
  function Awaited(k: NamespacedName, copy: LanguageModel): set<ObjMetadata> {
    set m | m in Recorded(copy) && !IsItself(k, m)
  }

  function OnWait(c: Cell, healthy: bool): Cell {
    if healthy then c.(mem := MarkHealthy(c.mem, True, Succeeded), pc := PatchHealthy)
    else Fail(c.(mem := MarkHealthy(c.mem, False, HealthCheckFailed)), HealthCheckFailed)
  }

  /** What finalization deletes: everything recorded, or nothing at all if some entry does not parse. */
  function FinalTargets(c: Cell): set<ObjMetadata> {
    if AllParse(Entries(c.mem.status)) then Recorded(c.mem) else {}
  }

  function OnImpersonation(c: Cell, possible: bool): Cell {
    if possible then c.(pc := FinalClient) else RemoveFinalizer(c)
  }

  function OnFinalClient(c: Cell, ok: bool): Cell {
    if ok then c.(pc := DeleteAll) else c.(pc := Finish, outcome := RequeueWithError)
  }

  function OnDeleteAll(k: NamespacedName, w: World, r: DeleteReply): World {
    var c := w.cell;
    var targets := FinalTargets(c);
    match r
    case DeleteFailed(part) =>
      World(c.(pc := Finish, outcome := RequeueWithError), DeleteFrom(k, w.live, targets * part))
    case DeletedAll =>
      World(RemoveFinalizer(c), DeleteFrom(k, w.live, targets))
  }

  /** The deferred end of every Reconcile call. */
  function OnFinish(c: Cell, r: PatchReply): Cell {
    var c := c.(mem := FinalizeStatus(c.mem));
    var outcome := if r == Patched then c.outcome else RequeueWithError;
    (if Persists(r) then Store(c) else c).(pc := Idle, outcome := outcome)
  }

  // ---------- the machine ----------

  predicate IsPatch(pc: Pc) {
    || pc == PatchProgressing || pc == PatchAttempted || pc == PatchDrift
    || pc == PatchChecking || pc == PatchHealthy || pc == Finish
  }

  /** Which replies and outside actions are possible: the contracts of the environment. */
  predicate Allowed(k: NamespacedName, w: World, l: Label) {
    var c := w.cell;
    match l
    case Get => c.pc == Idle
    case GetFailed => c.pc == Idle
    case SourceIs(kind, from, _) =>
      c.pc == GetSource && Resolve(false, k, c.mem.spec.sourceRef) == Lookup(kind, from)
    case Patch(r) => IsPatch(c.pc) && (Persists(r) ==> c.stored.Some?)
    case Client(_) => c.pc == GetClient || c.pc == FinalClient
    case Apply(r) => c.pc == ApplyObjects && (r.Applied? ==> Reports(k, w.live, c.objs, r.entries))
    case Delete(_) => c.pc == DeleteStale || c.pc == DeleteAll
    case Wait(awaited, _) => c.pc == WaitHealthy && awaited == Awaited(k, c.mem)
    case Impersonation(_) => c.pc == CanImpersonate
    case Crash => c.pc != Idle
    case Created(_) => c.stored.None?
    case Edited(_) => c.stored.Some?
    case Requested(_) => c.stored.Some?
    case DeletionRequested => c.stored.Some?
    // others may do anything to live objects except put our owner labels on them
    case Outside(live) => Owned(k, live) <= Owned(k, w.live)
  }

  /** The effect of a possible label. */
  function Step(noCross: bool, k: NamespacedName, w: World, l: Label): World {
    var c := w.cell;
    match l
    case Get => w.(cell := OnGet(noCross, k, c))
    case GetFailed => w.(cell := c.(outcome := RequeueWithError))
    case SourceIs(_, _, r) => w.(cell := OnSource(c, r))
    case Patch(r) => w.(cell := if c.pc == Finish then OnFinish(c, r) else OnPatch(c, r))
    case Client(ok) => w.(cell := if c.pc == GetClient then OnClient(k, c, ok) else OnFinalClient(c, ok))
    case Apply(r) => OnApply(k, w, r)
    case Delete(r) => if c.pc == DeleteStale then OnDeleteStale(k, w, r) else OnDeleteAll(k, w, r)
    case Wait(_, healthy) => w.(cell := OnWait(c, healthy))
    case Impersonation(possible) => w.(cell := OnImpersonation(c, possible))
    case Crash => w.(cell := c.(pc := Idle))
    case Outside(live) => w.(live := live)
    case _ => w.(cell := c.(stored := OnUser(c.stored, l)))
  }

  /** What users do to the object itself. Without a finalizer, deletion is immediate. */
  function OnUser(stored: Option<LanguageModel>, l: Label): Option<LanguageModel> {
    match (stored, l)
    case (None, Created(spec)) => Some(LanguageModel(spec, 1, None, false, false, INITIAL_STATUS))
    case (Some(lm), Edited(spec)) => Some(lm.(spec := spec, generation := lm.generation + 1))
    case (Some(lm), Requested(at)) => Some(lm.(requested := Some(at)))
    case (Some(lm), DeletionRequested) => if lm.finalizer then Some(lm.(deleting := true)) else None
    case _ => stored
  }

  /** A run: the states the machine goes through, and the label of each step between them. */
  predicate IsRun(noCross: bool, k: NamespacedName, ws: seq<World>, ls: seq<Label>) {
    && |ws| == |ls| + 1
    && forall i {:trigger ls[i]} :: 0 <= i < |ls| ==>
         Allowed(k, ws[i], ls[i]) && ws[i + 1] == Step(noCross, k, ws[i], ls[i])
  }

  /** Any cluster, before this LanguageModel exists and before it owns anything. */
  predicate Initial(k: NamespacedName, w: World) {
    w.cell == INITIAL_CELL && Owned(k, w.live) == {}
  }

  predicate IsRunFromStart(noCross: bool, k: NamespacedName, ws: seq<World>, ls: seq<Label>) {
    IsRun(noCross, k, ws, ls) && ValidName(k) && Initial(k, ws[0])
  }

  /** The run up to some moment. */
  lemma RunPrefix(noCross: bool, k: NamespacedName, ws: seq<World>, ls: seq<Label>, n: nat)
    requires IsRun(noCross, k, ws, ls) && n <= |ls|
    ensures IsRun(noCross, k, ws[..n + 1], ls[..n])
  {
    hide Step, Allowed;
    forall i | 0 <= i < n
      ensures Allowed(k, ws[..n + 1][i], ls[..n][i])
      ensures ws[..n + 1][i + 1] == Step(noCross, k, ws[..n + 1][i], ls[..n][i])
    {
      assert ls[..n][i] == ls[i];
    }
  }

  /** The run without its last step. */
  lemma RunInit(noCross: bool, k: NamespacedName, ws: seq<World>, ls: seq<Label>)
    requires IsRun(noCross, k, ws, ls) && ls != []
    ensures
      var n := |ls| - 1;
      && IsRun(noCross, k, ws[..n + 1], ls[..n])
      && Allowed(k, ws[n], ls[n]) && ws[n + 1] == Step(noCross, k, ws[n], ls[n])
  {
    hide Allowed, Step;
    RunPrefix(noCross, k, ws, ls, |ls| - 1);
    assert ls[|ls| - 1] == ls[|ls| - 1];
  }

  /** One more step makes a longer run. */
  lemma RunSnoc(noCross: bool, k: NamespacedName, ws: seq<World>, ls: seq<Label>, l: Label)
    requires IsRun(noCross, k, ws, ls) && Allowed(k, ws[|ls|], l)
    ensures IsRun(noCross, k, ws + [Step(noCross, k, ws[|ls|], l)], ls + [l])
  {
    hide Allowed, Step;
    var ws', ls' := ws + [Step(noCross, k, ws[|ls|], l)], ls + [l];
    forall i | 0 <= i < |ls'|
      ensures Allowed(k, ws'[i], ls'[i]) && ws'[i + 1] == Step(noCross, k, ws'[i], ls'[i])
    {
      if i < |ls| {
        assert ls'[i] == ls[i];
      }
    }
  }

  // ---------- the step each of the controller's labels stands for ----------

  lemma GetStep(noCross: bool, k: NamespacedName, w: World)
    requires w.cell.pc == Idle
    ensures Allowed(k, w, Get) && Step(noCross, k, w, Get) == w.(cell := OnGet(noCross, k, w.cell))
    ensures Allowed(k, w, GetFailed)
    ensures Step(noCross, k, w, GetFailed) == w.(cell := w.cell.(outcome := RequeueWithError))
  {
  }

  lemma SourceStep(
      noCross: bool, k: NamespacedName, w: World, kind: string, from: NamespacedName, r: SourceReply)
    requires w.cell.pc == GetSource && Resolve(false, k, w.cell.mem.spec.sourceRef) == Lookup(kind, from)
    ensures Allowed(k, w, SourceIs(kind, from, r))
    ensures Step(noCross, k, w, SourceIs(kind, from, r)) == w.(cell := OnSource(w.cell, r))
  {
  }

  lemma PatchStep(noCross: bool, k: NamespacedName, w: World, r: PatchReply)
    requires IsPatch(w.cell.pc) && (Persists(r) ==> w.cell.stored.Some?)
    ensures Allowed(k, w, Patch(r))
    ensures Step(noCross, k, w, Patch(r)) ==
            w.(cell := if w.cell.pc == Finish then OnFinish(w.cell, r) else OnPatch(w.cell, r))
  {
  }

  lemma ClientStep(noCross: bool, k: NamespacedName, w: World, ok: bool)
    requires w.cell.pc == GetClient || w.cell.pc == FinalClient
    ensures Allowed(k, w, Client(ok))
    ensures Step(noCross, k, w, Client(ok)) ==
            w.(cell := if w.cell.pc == GetClient then OnClient(k, w.cell, ok) else OnFinalClient(w.cell, ok))
  {
  }

  lemma DeleteStep(noCross: bool, k: NamespacedName, w: World, r: DeleteReply)
    requires w.cell.pc == DeleteStale || w.cell.pc == DeleteAll
    ensures Allowed(k, w, Delete(r))
    ensures Step(noCross, k, w, Delete(r)) ==
            if w.cell.pc == DeleteStale then OnDeleteStale(k, w, r) else OnDeleteAll(k, w, r)
  {
  }

  lemma WaitStep(noCross: bool, k: NamespacedName, w: World, awaited: set<ObjMetadata>, healthy: bool)
    requires w.cell.pc == WaitHealthy && awaited == Awaited(k, w.cell.mem)
    ensures Allowed(k, w, Wait(awaited, healthy))
    ensures Step(noCross, k, w, Wait(awaited, healthy)) == w.(cell := OnWait(w.cell, healthy))
  {
  }

  lemma ImpersonationStep(noCross: bool, k: NamespacedName, w: World, possible: bool)
    requires w.cell.pc == CanImpersonate
    ensures Allowed(k, w, Impersonation(possible))
    ensures Step(noCross, k, w, Impersonation(possible)) == w.(cell := OnImpersonation(w.cell, possible))
  {
  }
}
