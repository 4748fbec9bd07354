/**
 Any number of LanguageModels in one cluster, their controllers' steps
 interleaved in any order, together with everybody else's.
 */
module Fleet {
  import opened ObjectIds
  import opened Inventory
  import opened Api
  import opened Manifests
  import opened Cluster
  import opened Machine
  import opened Invariants
  import opened Safety
  import opened Orphans

  datatype State = State(cells: map<NamespacedName, Cell>, live: LiveObjects)

  /** A step concerning one LanguageModel, or a change of live objects by others. */
  datatype Move = Act(k: NamespacedName, act: Label) | Others(live: LiveObjects)

  function Seen(s: State, k: NamespacedName): World
    requires k in s.cells
  {
    World(s.cells[k], s.live)
  }

  predicate Possible(s: State, m: Move) {
    match m
    case Act(k, l) => k in s.cells && Allowed(k, Seen(s, k), l) && !l.Outside?
    case Others(live) => forall k :: k in s.cells ==> Owned(k, live) <= Owned(k, s.live)
  }

  function Next(noCross: bool, s: State, m: Move): State {
    match m
    case Act(k, l) =>
      if k !in s.cells then s
      else
        var w := Step(noCross, k, Seen(s, k), l);
        State(s.cells[k := w.cell], w.live)
    case Others(live) => s.(live := live)
  }

  predicate IsFleetRun(noCross: bool, ss: seq<State>, ms: seq<Move>) {
    && |ss| == |ms| + 1
    && (forall k :: k in ss[0].cells ==> ValidName(k) && Initial(k, Seen(ss[0], k)))
    && forall i {:trigger ms[i]} :: 0 <= i < |ms| ==> Possible(ss[i], ms[i]) && ss[i + 1] == Next(noCross, ss[i], ms[i])
  }

  /** A controller's step touches no live object outside its own family. */
  lemma OnlyOwnFamily(noCross: bool, j: NamespacedName, w: World, l: Label)
    requires Allowed(j, w, l) && Inventoried(j, w.cell) && !l.Outside?
    ensures forall m :: m !in Family(j) ==> (m in Step(noCross, j, w, l).live <==> m in w.live)
    ensures forall m :: m in w.live && m !in Family(j) ==> Step(noCross, j, w, l).live[m] == w.live[m]
  {
    hide Build, MetaSet, Refs, Reports, Owned, Family, CheckHealth, AfterApply, OnGet, OnPatch, OnFinish, OnClient;
    hide OnUser;
    if l.Apply? {
      BuildFacts(j, w.cell.mem.spec, w.cell.artifact);
    }
  }

  /** Whatever one controller does, it never becomes the owner of another one's object, nor puts its labels on one. */
  lemma OthersOwnNoMore(noCross: bool, j: NamespacedName, k: NamespacedName, w: World, l: Label)
    requires j != k && !l.Outside?
    ensures Owned(k, Step(noCross, j, w, l).live) <= Owned(k, w.live)
  {
    hide MetaSet, Refs, CheckHealth, AfterApply, OnGet, OnPatch, OnFinish, OnClient, OnUser, Desired, FinalTargets;
  }

  lemma MoveInit(noCross: bool, ss: seq<State>, ms: seq<Move>, i: nat)
    requires IsFleetRun(noCross, ss, ms) && i < |ms|
    ensures Possible(ss[i], ms[i]) && ss[i + 1] == Next(noCross, ss[i], ms[i])
  {
    hide Possible, Next;
    assert ms[i] == ms[i];
  }

  lemma {:induction false} SameNames(noCross: bool, ss: seq<State>, ms: seq<Move>, i: nat)
    requires IsFleetRun(noCross, ss, ms) && i <= |ms|
    ensures ss[i].cells.Keys == ss[0].cells.Keys
    decreases i
  {
    hide Step, Possible;
    if i > 0 {
      SameNames(noCross, ss, ms, i - 1);
      MoveInit(noCross, ss, ms, i - 1);
    }
  }

  /** How one LanguageModel experiences a move: its own as its own, all others as outside changes. */
  function Experience(k: NamespacedName, m: Move, live: LiveObjects): Label {
    if m.Act? && m.k == k then m.act else Outside(live)
  }

  function Views(ss: seq<State>, k: NamespacedName): seq<World>
    requires forall i :: 0 <= i < |ss| ==> k in ss[i].cells
  {
    seq(|ss|, i requires 0 <= i < |ss| => Seen(ss[i], k))
  }

  function Experiences(ss: seq<State>, ms: seq<Move>, k: NamespacedName): seq<Label>
    requires |ss| == |ms| + 1
  {
    seq(|ms|, i requires 0 <= i < |ms| => Experience(k, ms[i], ss[i + 1].live))
  }

  lemma ExperienceStep(noCross: bool, k: NamespacedName, s: State, m: Move)
    requires k in s.cells && Possible(s, m)
    ensures
      var t := Next(noCross, s, m);
      && k in t.cells
      && Allowed(k, Seen(s, k), Experience(k, m, t.live))
      && Seen(t, k) == Step(noCross, k, Seen(s, k), Experience(k, m, t.live))
  {
    if m.Act? && m.k != k {
      OthersOwnNoMore(noCross, m.k, k, Seen(s, m.k), m.act);
    }
    hide OnGet, OnSource, OnPatch, OnClient, OnApply, OnDeleteStale, OnWait, OnFinish, OnUser;
    hide OnImpersonation, OnFinalClient, OnDeleteAll, Reports, Owned;
  }

  /**
   Each LanguageModel sees any interleaving as a run of its own, so everything
   proved about single runs holds for all of them at once.
   */
  lemma Projection(noCross: bool, ss: seq<State>, ms: seq<Move>, k: NamespacedName)
    requires IsFleetRun(noCross, ss, ms) && k in ss[0].cells
    ensures forall i :: 0 <= i < |ss| ==> k in ss[i].cells
    ensures IsRunFromStart(noCross, k, Views(ss, k), Experiences(ss, ms, k))
  {
    hide Possible, Next, Step, Allowed, Initial;
    forall i | 0 <= i < |ss| ensures k in ss[i].cells {
      SameNames(noCross, ss, ms, i);
    }
    var ws, ls := Views(ss, k), Experiences(ss, ms, k);
    forall i | 0 <= i < |ls|
      ensures Allowed(k, ws[i], ls[i]) && ws[i + 1] == Step(noCross, k, ws[i], ls[i])
    {
      MoveInit(noCross, ss, ms, i);
      ExperienceStep(noCross, k, ss[i], ms[i]);
    }
  }

  /** The states of a fleet run up to some moment. */
  lemma FleetPrefix(noCross: bool, ss: seq<State>, ms: seq<Move>, n: nat)
    requires IsFleetRun(noCross, ss, ms) && n <= |ms|
    ensures IsFleetRun(noCross, ss[..n + 1], ms[..n])
  {
    hide Possible, Next, Initial;
    forall i | 0 <= i < n
      ensures Possible(ss[..n + 1][i], ms[..n][i]) && ss[..n + 1][i + 1] == Next(noCross, ss[..n + 1][i], ms[..n][i])
    {
      MoveInit(noCross, ss, ms, i);
    }
  }

  /**
   Non-interference: under any interleaving, a controller's step leaves every
   object that any other LanguageModel can build exactly as it was.
   */
  lemma NonInterference(noCross: bool, ss: seq<State>, ms: seq<Move>, i: nat, k: NamespacedName)
    requires IsFleetRun(noCross, ss, ms) && i < |ms|
    requires ms[i].Act? && ms[i].k != k
    ensures forall m :: m in Family(k) ==> (m in ss[i + 1].live <==> m in ss[i].live)
    ensures forall m :: m in Family(k) && m in ss[i].live ==> ss[i + 1].live[m] == ss[i].live[m]
  {
    hide Step, Initial, Owned, Family, Good, Inventoried;
    var j := ms[i].k;
    MoveInit(noCross, ss, ms, i);
    FleetPrefix(noCross, ss, ms, i);
    SameNames(noCross, ss, ms, i);
    Projection(noCross, ss[..i + 1], ms[..i], j);
    ReachableIsGood(noCross, j, Views(ss[..i + 1], j), Experiences(ss[..i + 1], ms[..i], j));
    GoodInventoried(j, Seen(ss[i], j));
    OnlyOwnFamily(noCross, j, Seen(ss[i], j), ms[i].act);
    FamiliesDisjoint(j, k);
  }

  /**
   Orphans in a fleet: whatever the others do, an orphan of a LanguageModel was
   abandoned by a step of its own controller, and has been an orphan ever since.
   */
  lemma FleetOrphansHaveACause(noCross: bool, ss: seq<State>, ms: seq<Move>, k: NamespacedName, m: ObjMetadata)
    returns (i: nat)
    requires IsFleetRun(noCross, ss, ms) && k in ss[0].cells
    requires k in ss[|ms|].cells && m in Orphaned(k, Seen(ss[|ms|], k))
    ensures i < |ms| && ms[i].Act? && ms[i].k == k
    ensures k in ss[i].cells && m in Abandoned(k, Seen(ss[i], k), ms[i].act)
    ensures forall j | i < j <= |ms| :: k in ss[j].cells && m in Orphaned(k, Seen(ss[j], k))
  {
    hide Step, Initial, Owned, Possible, Next, Allowed, IsRun, Orphaned;
    Projection(noCross, ss, ms, k);
    i := OrphansHaveACause(noCross, k, Views(ss, k), Experiences(ss, ms, k), m);
    assert Views(ss, k)[i] == Seen(ss[i], k);
    forall j | i < j <= |ms| ensures k in ss[j].cells && m in Orphaned(k, Seen(ss[j], k)) {
      assert Views(ss, k)[j] == Seen(ss[j], k);
    }
    OnlyActsAbandon(k, Seen(ss[i], k), ms[i], ss[i + 1].live, m);
  }

  lemma OnlyActsAbandon(k: NamespacedName, w: World, m: Move, live: LiveObjects, id: ObjMetadata)
    requires id in Abandoned(k, w, Experience(k, m, live))
    ensures m.Act? && m.k == k && Experience(k, m, live) == m.act
  {
  }

  /** This LanguageModel's own steps abandon nothing. */
  ghost predicate CleanFor(ss: seq<State>, ms: seq<Move>, k: NamespacedName)
    requires |ss| == |ms| + 1
  {
    forall i {:trigger ms[i]} :: 0 <= i < |ms| && ms[i].Act? && ms[i].k == k && k in ss[i].cells ==>
      Abandoned(k, Seen(ss[i], k), ms[i].act) == {}
  }

  /**
   No orphans in a fleet: as long as its own steps abandon nothing, a
   LanguageModel keeps track of all its objects, whatever the others do; and its
   Ready is always honest.
   */
  lemma FleetNoOrphans(noCross: bool, ss: seq<State>, ms: seq<Move>, k: NamespacedName)
    requires IsFleetRun(noCross, ss, ms) && k in ss[0].cells
    ensures k in ss[|ms|].cells
    ensures
      var c := ss[|ms|].cells[k];
      && (CleanFor(ss, ms, k) ==> Orphaned(k, Seen(ss[|ms|], k)) == {})
      && (CleanFor(ss, ms, k) && c.pc == Idle ==> Owned(k, ss[|ms|].live) <= RecordedIn(c.stored))
      && (c.stored.Some? && IsReady(c.stored.value.status) ==>
            c.stored.value.status.lastApplied == c.stored.value.status.lastAttempted)
  {
    hide Step, Initial, Owned, Possible, Next, Allowed, Recorded, RecordedIn, IsRun, Abandoned, Tracked, Orphaned;
    Projection(noCross, ss, ms, k);
    var w := Seen(ss[|ms|], k);
    if CleanFor(ss, ms, k) {
      if m :| m in Orphaned(k, w) {
        var i := FleetOrphansHaveACause(noCross, ss, ms, k, m);
      }
      NoneOrphaned(k, w);
      TrackedAtRest(w.cell);
    }
    if w.cell.stored.Some? {
      HonestReady(noCross, k, Views(ss, k), Experiences(ss, ms, k));
    }
  }
}
