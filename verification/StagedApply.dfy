/**
 Applying objects in stages: definitions first, then classes, then everything
 else, waiting for each of the first two to be ready before going on.
 */
module StagedApply {
  import opened Wrappers
  import opened ObjectIds
  import opened ChangeSets
  import opened Inventory
  import opened Sorting
  import opened Api
  import opened Manifests
  import opened Cluster

  datatype Call = ApplyCall(objs: seq<Object>, ok: bool) | WaitCall(metas: set<ObjMetadata>, ok: bool)

  /** The identities of the entries are those of the objects, each as often. */
  ghost predicate ReportsEach(objs: seq<Object>, entries: seq<ChangeSetEntry>) {
    multiset(ToObjMetadataSet(entries)) == multiset(Metas(objs))
  }

  /** The server-side apply library for one LanguageModel, over the live objects. Any call may fail. */
  class ResourceManager {
    const key: NamespacedName
    var live: LiveObjects
    ghost var calls: seq<Call>

    constructor (key: NamespacedName, live: LiveObjects)
      ensures this.key == key && this.live == live && calls == []
    {
      this.key, this.live, this.calls := key, live, [];
    }

    /**
     One entry per object, with its identity. What a list that names an object
     twice does to it is left open. A failing apply may have done any part of
     its work.
     */
    method ApplyAll(objs: seq<Object>) returns (r: Option<seq<ChangeSetEntry>>, ghost part: set<ObjMetadata>)
      modifies this
      ensures calls == old(calls) + [ApplyCall(objs, r.Some?)]
      ensures r.Some? ==> ReportsEach(objs, r.value)
      ensures r.Some? && DistinctIds(objs) ==>
                Reports(key, old(live), objs, r.value) && live == ApplyTo(key, old(live), Desired(objs))
      ensures r.None? && DistinctIds(objs) ==> live == ApplyTo(key, old(live), Restrict(Desired(objs), part))
    {
      var ok: bool := *;
      if ok {
        r := Some(EntriesOf(key, live, objs));
        assert ToObjMetadataSet(r.value) == Metas(objs);
        live := ApplyTo(key, live, Desired(objs));
        part := {};
      } else {
        var done: set<ObjMetadata> := *;
        r := None;
        live := ApplyTo(key, live, Restrict(Desired(objs), done));
        part := done;
      }
      calls := calls + [ApplyCall(objs, ok)];
    }

    method WaitForSet(metas: set<ObjMetadata>) returns (ok: bool)
      modifies this`calls
      ensures calls == old(calls) + [WaitCall(metas, ok)]
    {
      ok := *;
      calls := calls + [WaitCall(metas, ok)];
    }

    method SetNativeKindsDefaults(objs: seq<Object>) returns (ok: bool)
    {
      ok := *;
    }

    method DeleteAll(targets: seq<Unstructured>) returns (ok: bool, ghost part: set<ObjMetadata>)
      modifies this`live
      ensures ok ==> live == DeleteFrom(key, old(live), set o | o in targets :: o.meta)
      ensures !ok ==> live == DeleteFrom(key, old(live), (set o | o in targets :: o.meta) * part)
    {
      ok := *;
      if ok {
        live := DeleteFrom(key, live, set o | o in targets :: o.meta);
        part := {};
      } else {
        var done: set<ObjMetadata> := *;
        live := DeleteFrom(key, live, (set o | o in targets :: o.meta) * done);
        part := done;
      }
    }
  }

  // ---------- stages ----------

  datatype Stage = Definitions | Classes | Rest

  predicate HasSuffix(s: string, suffix: string) {
    |s| >= |suffix| && s[|s| - |suffix|..] == suffix
  }

  predicate IsClusterDefinition(o: Object) {
    o.meta.kind == "CustomResourceDefinition" || o.meta.kind == "Namespace"
  }

  function StageOf(o: Object): Stage {
    if IsClusterDefinition(o) then Definitions
    else if HasSuffix(o.meta.kind, "Class") then Classes
    else Rest
  }

  function InStage(objs: seq<Object>, s: Stage): seq<Object> {
    if objs == [] then []
    else
      var last := objs[|objs| - 1];
      InStage(objs[..|objs| - 1], s) + if StageOf(last) == s then [last] else []
  }

  /** The stages hold every object exactly as often as the list does. */
  lemma {:induction false} StagesPartition(objs: seq<Object>)
    ensures multiset(objs) ==
            multiset(InStage(objs, Definitions)) + multiset(InStage(objs, Classes)) + multiset(InStage(objs, Rest))
  {
    if objs != [] {
      var n := |objs| - 1;
      var init, last := objs[..n], objs[n];
      assert objs == init + [last];
      StagesPartition(init);
      StageSnoc(init, last, Definitions);
      StageSnoc(init, last, Classes);
      StageSnoc(init, last, Rest);
      hide InStage, StageOf;
    }
  }

  /** Each stage holds the objects of its kind. */
  lemma {:induction false} StageMembers(objs: seq<Object>, s: Stage)
    ensures forall o :: o in InStage(objs, s) <==> o in objs && StageOf(o) == s
  {
    if objs != [] {
      var n := |objs| - 1;
      var init, last := objs[..n], objs[n];
      assert objs == init + [last];
      StageMembers(init, s);
      StageSnoc(init, last, s);
      hide InStage, StageOf;
    }
  }

  lemma StageSnoc(init: seq<Object>, last: Object, s: Stage)
    ensures InStage(init + [last], s) == InStage(init, s) + if StageOf(last) == s then [last] else []
  {
    hide StageOf;
    assert (init + [last])[..|init|] == init;
  }

  /** What Kubernetes objects a build produces: none that has to be waited for by the others. */
  lemma BuiltObjectsAreOneStage(k: NamespacedName, spec: Spec, a: Artifact)
    requires Build(k, spec, a).Success?
    ensures forall o :: o in Build(k, spec, a).value ==> StageOf(o) == Rest
  {
    BuildFacts(k, spec, a);
    hide Build;
    NoSpecialKind("Deployment");
    NoSpecialKind("Service");
    NoSpecialKind("PersistentVolumeClaim");
  }

  lemma NoSpecialKind(kind: string)
    requires kind in {"Deployment", "Service", "PersistentVolumeClaim"}
    ensures kind != "CustomResourceDefinition" && kind != "Namespace" && !HasSuffix(kind, "Class")
  {
    assert |"CustomResourceDefinition"| == 24 && |"Namespace"| == 9 && |"Class"| == 5;
    assert |"Deployment"| == 10 && |"Service"| == 7 && |"PersistentVolumeClaim"| == 21;
    var tail := kind[|kind| - 5..];
    assert tail[3] != "Class"[3];
  }

  // ---------- staged apply is one apply ----------

  lemma EntriesConcat(k: NamespacedName, live: LiveObjects, a: seq<Object>, b: seq<Object>)
    ensures EntriesOf(k, live, a + b) == EntriesOf(k, live, a) + EntriesOf(k, live, b)
  {
  }

  lemma EntriesPermutation(k: NamespacedName, live: LiveObjects, a: seq<Object>, b: seq<Object>)
    requires multiset(a) == multiset(b)
    ensures multiset(EntriesOf(k, live, a)) == multiset(EntriesOf(k, live, b))
  {
    var entry := (o: Object) => EntryOf(k, live, o);
    MapPermutation(a, b, entry);
    assert Map(a, entry) == EntriesOf(k, live, a);
    assert Map(b, entry) == EntriesOf(k, live, b);
  }

  lemma DistinctConcat(a: seq<Object>, b: seq<Object>)
    requires DistinctIds(a + b)
    ensures DistinctIds(a) && DistinctIds(b) && Ids(a) !! Ids(b)
  {
    assert forall i | 0 <= i < |a| :: a[i] == (a + b)[i];
    assert forall j | 0 <= j < |b| :: b[j] == (a + b)[|a| + j];
  }

  lemma DesiredConcat(a: seq<Object>, b: seq<Object>)
    requires DistinctIds(a + b)
    ensures Ids(a + b) == Ids(a) + Ids(b)
    ensures Desired(a + b) == Desired(a) + Desired(b)
  {
    DistinctConcat(a, b);
    hide Desired, DistinctIds;
    DesiredLookup(a);
    DesiredLookup(b);
    DesiredLookup(a + b);
    IdsConcat(a, b);
    hide Ids;
    forall m | m in Ids(a + b) ensures Desired(a + b)[m] == (Desired(a) + Desired(b))[m] {
      var o := Named(a + b, m);
      assert o in a || o in b;
    }
  }

  lemma IdsConcat(a: seq<Object>, b: seq<Object>)
    ensures Ids(a + b) == Ids(a) + Ids(b)
  {
    assert forall o :: o in a + b <==> o in a || o in b;
  }

  lemma Named(objs: seq<Object>, m: ObjMetadata) returns (o: Object)
    requires m in Ids(objs)
    ensures o in objs && o.meta == m
  {
    o :| o in objs && o.meta == m;
  }

  lemma ApplyAt(k: NamespacedName, live: LiveObjects, d: map<ObjMetadata, Manifest>, m: ObjMetadata)
    ensures m in ApplyTo(k, live, d) <==> m in live || m in d
    ensures m in d && !Skipped(live, m) ==> ApplyTo(k, live, d)[m] == Configure(k, live, m, d[m])
    ensures m in live && (m !in d || Skipped(live, m)) ==> ApplyTo(k, live, d)[m] == live[m]
  {
  }

  /** Applying to some objects and then to others is applying to all of them at once. */
  lemma ApplyUnion(k: NamespacedName, live: LiveObjects, d: map<ObjMetadata, Manifest>, e: map<ObjMetadata, Manifest>)
    requires d.Keys !! e.Keys
    ensures ApplyTo(k, ApplyTo(k, live, d), e) == ApplyTo(k, live, d + e)
  {
    hide ApplyTo;
    var first := ApplyTo(k, live, d);
    var once, twice := ApplyTo(k, live, d + e), ApplyTo(k, first, e);
    forall m
      ensures m in once <==> m in twice
      ensures m in once ==> once[m] == twice[m]
    {
      ApplyAt(k, live, d, m);
      ApplyAt(k, first, e, m);
      ApplyAt(k, live, d + e, m);
    }
  }

  lemma SameEntries(k: NamespacedName, live: LiveObjects, d: map<ObjMetadata, Manifest>, b: seq<Object>)
    requires d.Keys !! Ids(b)
    ensures EntriesOf(k, ApplyTo(k, live, d), b) == EntriesOf(k, live, b)
  {
    hide ApplyTo;
    forall i | 0 <= i < |b| ensures EntryOf(k, ApplyTo(k, live, d), b[i]) == EntryOf(k, live, b[i]) {
      assert b[i].meta in Ids(b);
      ApplyAt(k, live, d, b[i].meta);
    }
  }

  /** Applying one list of objects and then another is applying both at once, when they are different objects. */
  lemma ApplyTwice(k: NamespacedName, live: LiveObjects, a: seq<Object>, b: seq<Object>)
    requires DistinctIds(a + b)
    ensures ApplyTo(k, ApplyTo(k, live, Desired(a)), Desired(b)) == ApplyTo(k, live, Desired(a + b))
    ensures EntriesOf(k, ApplyTo(k, live, Desired(a)), b) == EntriesOf(k, live, b)
  {
    hide *;
    DistinctConcat(a, b);
    DesiredConcat(a, b);
    ApplyUnion(k, live, Desired(a), Desired(b));
    SameEntries(k, live, Desired(a), b);
  }

  lemma RestrictSum(d: map<ObjMetadata, Manifest>, e: map<ObjMetadata, Manifest>, part: set<ObjMetadata>)
    requires d.Keys !! e.Keys
    ensures Restrict(d + e, d.Keys + part * e.Keys) == d + Restrict(e, part)
    ensures Restrict(e, part).Keys <= e.Keys
  {
  }

  /** Likewise when the second apply only did a part of its work. */
  lemma ApplyTwicePartly(k: NamespacedName, live: LiveObjects, a: seq<Object>, b: seq<Object>, part: set<ObjMetadata>)
    requires DistinctIds(a + b)
    ensures ApplyTo(k, ApplyTo(k, live, Desired(a)), Restrict(Desired(b), part)) ==
            ApplyTo(k, live, Restrict(Desired(a + b), Ids(a) + part * Ids(b)))
  {
    hide *;
    DistinctConcat(a, b);
    DesiredConcat(a, b);
    RestrictSum(Desired(a), Desired(b), part);
    ApplyUnion(k, live, Desired(a), Restrict(Desired(b), part));
  }

  /** Neither the order of the objects nor their stages matter for what an apply does and reports. */
  lemma ApplyPermutation(k: NamespacedName, live: LiveObjects, a: seq<Object>, b: seq<Object>)
    requires DistinctIds(a) && multiset(a) == multiset(b)
    ensures DistinctIds(b) && Ids(a) == Ids(b) && Desired(a) == Desired(b)
    ensures multiset(EntriesOf(k, live, a)) == multiset(EntriesOf(k, live, b))
  {
    EntriesPermutation(k, live, a, b);
    DistinctPermutation(a, b, (x: Object, y: Object) => x.meta == y.meta);
    hide EntriesOf;
    forall o ensures o in a <==> o in b {
      assert o in multiset(a) <==> o in multiset(b);
    }
    SameMembers(a, b);
  }

  lemma SameMembers(a: seq<Object>, b: seq<Object>)
    requires DistinctIds(a) && DistinctIds(b) && forall o :: o in a <==> o in b
    ensures Ids(a) == Ids(b) && Desired(a) == Desired(b)
  {
    DesiredLookup(a);
    DesiredLookup(b);
    hide Desired, DistinctIds;
    forall m | m in Ids(a) ensures Desired(a)[m] == Desired(b)[m] {
      var o := Named(a, m);
    }
  }

  // ---------- drift ----------

  /** The apply leaves this object as it is exactly when it does not report a change. */
  lemma UnchangedExactly(k: NamespacedName, live: LiveObjects, d: map<ObjMetadata, Manifest>, o: Object)
    requires o.meta in d && d[o.meta] == o.manifest
    ensures HasChanged(ActionOn(k, live, o)) <==>
            o.meta !in live || ApplyTo(k, live, d)[o.meta] != live[o.meta]
  {
    ApplyAt(k, live, d, o.meta);
    hide ApplyTo;
  }

  /** Drift is reported if and only if the apply changed some live object. */
  lemma DriftIsChange(k: NamespacedName, live: LiveObjects, objs: seq<Object>, entries: seq<ChangeSetEntry>)
    requires DistinctIds(objs) && Reports(k, live, objs, entries)
    ensures Drifted(entries) <==> ApplyTo(k, live, Desired(objs)) != live
  {
    var d := Desired(objs);
    DesiredLookup(objs);
    ReportedIds(k, live, objs, entries);
    forall o | o in objs
      ensures HasChanged(ActionOn(k, live, o)) <==> o.meta !in live || ApplyTo(k, live, d)[o.meta] != live[o.meta]
    {
      UnchangedExactly(k, live, d, o);
    }
    hide Reports, HasChanged, DistinctIds;
    if Drifted(entries) {
      var e :| e in entries && HasChanged(e.action);
      var o :| o in objs && e == EntryOf(k, live, o);
    } else {
      forall o | o in objs ensures !HasChanged(ActionOn(k, live, o)) {
        assert EntryOf(k, live, o) in entries;
      }
      NothingChanges(k, live, objs);
    }
  }

  lemma NothingChanges(k: NamespacedName, live: LiveObjects, objs: seq<Object>)
    requires forall o :: o in objs ==> o.meta in live && ApplyTo(k, live, Desired(objs))[o.meta] == live[o.meta]
    ensures ApplyTo(k, live, Desired(objs)) == live
  {
    hide ApplyTo, Desired;
    var d := Desired(objs);
    forall m
      ensures m in ApplyTo(k, live, d) <==> m in live
      ensures m in live ==> ApplyTo(k, live, d)[m] == live[m]
    {
      ApplyAt(k, live, d, m);
      if m in d {
        var o := Named(objs, m);
      }
    }
  }

  // ---------- the algorithm ----------

  /** The calls one stage makes when nothing fails: none for an empty stage. */
  function StagePlan(objs: seq<Object>, wait: bool): seq<Call> {
    if objs == [] then []
    else [ApplyCall(objs, true)] + if wait then [WaitCall(Ids(objs), true)] else []
  }

  /** These calls follow the plan up to some call, which fails; nothing comes after it. */
  predicate FailsWithin(calls: seq<Call>, plan: seq<Call>) {
    && 0 < |calls| <= |plan|
    && var n := |calls| - 1;
    && calls[..n] == plan[..n]
    && calls[n] == plan[n].(ok := false)
  }

  /** What an apply in progress has done so far is what one apply of these objects would do. */
  ghost predicate Progress(
      k: NamespacedName, start: LiveObjects, live: LiveObjects, done: seq<Object>, result: seq<ChangeSetEntry>) {
    && live == ApplyTo(k, start, Desired(done))
    && Reports(k, start, done, result)
  }

  lemma ProgressStep(
      k: NamespacedName, start: LiveObjects, live: LiveObjects, done: seq<Object>, result: seq<ChangeSetEntry>,
      objs: seq<Object>, entries: seq<ChangeSetEntry>)
    requires DistinctIds(done + objs) && Progress(k, start, live, done, result)
    requires Reports(k, live, objs, entries)
    ensures Progress(k, start, ApplyTo(k, live, Desired(objs)), done + objs, result + entries)
  {
    ApplyTwice(k, start, done, objs);
    EntriesConcat(k, start, done, objs);
    hide Desired, DistinctIds, EntriesOf, ApplyTo;
  }

  /** What the change log and the result say of the objects applied so far, whatever they are. */
  ghost predicate Logged(done: seq<Object>, result: seq<ChangeSetEntry>, changeLog: bool) {
    && ReportsEach(done, result)
    && (changeLog <==> Drifted(result))
  }

  lemma LoggedStep(
      done: seq<Object>, result: seq<ChangeSetEntry>, changeLog: bool, objs: seq<Object>,
      entries: seq<ChangeSetEntry>)
    requires Logged(done, result, changeLog) && ReportsEach(objs, entries)
    ensures Logged(done + objs, result + entries, changeLog || Drifted(entries))
  {
    hide HasChanged;
    assert Metas(done + objs) == Metas(done) + Metas(objs);
    assert ToObjMetadataSet(result + entries) == ToObjMetadataSet(result) + ToObjMetadataSet(entries);
  }

  lemma NothingApplied(k: NamespacedName, live: LiveObjects)
    ensures Progress(k, live, live, [], [])
    ensures Logged([], [], false)
  {
  }

  lemma WholeIsPart(d: map<ObjMetadata, Manifest>)
    ensures Restrict(d, d.Keys) == d
  {
  }

  /** One stage: apply, remember the entries, and wait if the stage is one of the first two. */
  method ApplyStage(
      manager: ResourceManager, ghost start: LiveObjects, ghost done: seq<Object>,
      objs: seq<Object>, wait: bool, result: seq<ChangeSetEntry>, changeLog: bool)
    returns (ok: bool, newResult: seq<ChangeSetEntry>, newLog: bool, ghost part: set<ObjMetadata>)
    requires Logged(done, result, changeLog)
    requires DistinctIds(done + objs) ==> Progress(manager.key, start, manager.live, done, result)
    modifies manager
    ensures ok ==> Logged(done + objs, newResult, newLog)
    ensures ok ==> manager.calls == old(manager.calls) + StagePlan(objs, wait)
    ensures ok && DistinctIds(done + objs) ==> Progress(manager.key, start, manager.live, done + objs, newResult)
    ensures !ok && DistinctIds(done + objs) ==>
              manager.live == ApplyTo(manager.key, start, Restrict(Desired(done + objs), part))
    ensures !ok ==> exists t :: manager.calls == old(manager.calls) + t && FailsWithin(t, StagePlan(objs, wait))
  {
    hide ApplyTo, Desired, DistinctIds, EntriesOf, Ids, Restrict, Progress, Reports, HasChanged, Logged, ReportsEach;
    ok, newResult, newLog, part := true, result, changeLog, {};
    if |objs| > 0 {
      ghost var before := manager.live;
      if DistinctIds(done + objs) {
        DistinctConcat(done, objs);
      }
      var entries, p := manager.ApplyAll(objs);
      if entries.None? {
        if DistinctIds(done + objs) {
          ProgressDone(manager.key, start, before, done, result);
          ApplyTwicePartly(manager.key, start, done, objs, p);
        }
        assert FailsWithin([ApplyCall(objs, false)], StagePlan(objs, wait));
        return false, [], false, Ids(done) + p * Ids(objs);
      }
      if DistinctIds(done + objs) {
        ProgressStep(manager.key, start, before, done, result, objs, entries.value);
      }
      LoggedStep(done, result, changeLog, objs, entries.value);
      newResult := result + entries.value;
      for i := 0 to |entries.value|
        invariant newLog <==> changeLog || Drifted(entries.value[..i])
        modifies {}
      {
        DriftedSnoc(entries.value, i);
        if HasChanged(entries.value[i].action) {
          newLog := true;
        }
      }
      assert entries.value[..|entries.value|] == entries.value;
      if wait {
        ok := manager.WaitForSet(Ids(objs));
        if !ok {
          if DistinctIds(done + objs) {
            ProgressDone(manager.key, start, manager.live, done + objs, newResult);
            WholeIsPart(Desired(done + objs));
          }
          part := Ids(done + objs);
          assert FailsWithin([ApplyCall(objs, true), WaitCall(Ids(objs), false)], StagePlan(objs, wait));
        }
      }
    } else {
      assert done + objs == done;
    }
  }

  lemma DriftedSnoc(es: seq<ChangeSetEntry>, i: nat)
    requires i < |es|
    ensures Drifted(es[..i + 1]) <==> Drifted(es[..i]) || HasChanged(es[i].action)
  {
    assert es[..i + 1] == es[..i] + [es[i]];
    assert es[i] in es[..i + 1];
  }

  /** Three stages in the order they are applied. */
  function Plan(defs: seq<Object>, classes: seq<Object>, rest: seq<Object>): seq<Call> {
    StagePlan(defs, true) + StagePlan(classes, true) + StagePlan(rest, false)
  }

  lemma FailsLater(plan0: seq<Call>, t: seq<Call>, plan1: seq<Call>, plan2: seq<Call>)
    requires FailsWithin(t, plan1)
    ensures FailsWithin(plan0 + t, plan0 + plan1 + plan2)
  {
    var u, plan, n := plan0 + t, plan0 + plan1 + plan2, |t| - 1;
    assert u[..|plan0| + n] == plan0 + t[..n];
    assert plan[..|plan0| + n] == plan0 + plan1[..n];
  }

  lemma PartOfPrefix(a: seq<Object>, b: seq<Object>, part: set<ObjMetadata>)
    requires DistinctIds(a + b)
    ensures Restrict(Desired(a), part) == Restrict(Desired(a + b), part * Ids(a))
  {
    hide Desired, DistinctIds;
    DistinctConcat(a, b);
    DesiredConcat(a, b);
  }

  /** When the objects so far are a prefix of all objects, so is the part applied. */
  lemma FailedPrefix(
      k: NamespacedName, start: LiveObjects, live: LiveObjects, a: seq<Object>, b: seq<Object>,
      part: set<ObjMetadata>)
    requires DistinctIds(a) ==> live == ApplyTo(k, start, Restrict(Desired(a), part))
    ensures DistinctIds(a + b) ==> live == ApplyTo(k, start, Restrict(Desired(a + b), part * Ids(a)))
  {
    hide Desired, DistinctIds, ApplyTo, Restrict, Ids;
    if DistinctIds(a + b) {
      DistinctConcat(a, b);
      PartOfPrefix(a, b, part);
    }
  }

  lemma PrefixDistinct(a: seq<Object>, b: seq<Object>)
    ensures DistinctIds(a + b) ==> DistinctIds(a)
  {
    hide DistinctIds;
    if DistinctIds(a + b) {
      DistinctConcat(a, b);
    }
  }

  method ApplyInStages(manager: ResourceManager, defs: seq<Object>, classes: seq<Object>, rest: seq<Object>)
    returns (r: Option<(bool, seq<ChangeSetEntry>)>, ghost part: set<ObjMetadata>)
    modifies manager
    ensures r.Some? ==> Logged(defs + classes + rest, r.value.1, r.value.0)
    ensures r.Some? ==> manager.calls == old(manager.calls) + Plan(defs, classes, rest)
    ensures r.Some? && DistinctIds(defs + classes + rest) ==>
              Progress(manager.key, old(manager.live), manager.live, defs + classes + rest, r.value.1)
    ensures r.None? && DistinctIds(defs + classes + rest) ==>
              manager.live == ApplyTo(manager.key, old(manager.live), Restrict(Desired(defs + classes + rest), part))
    ensures r.None? ==> exists t :: manager.calls == old(manager.calls) + t && FailsWithin(t, Plan(defs, classes, rest))
  {
    hide ApplyTo, Desired, DistinctIds, EntriesOf, Ids, Restrict, Progress, Reports, FailsWithin, StagePlan, Logged;
    ghost var start, calls := manager.live, manager.calls;
    ghost var plan0, plan1, plan2 := StagePlan(defs, true), StagePlan(classes, true), StagePlan(rest, false);
    PrefixDistinct(defs + classes, rest);
    PrefixDistinct(defs, classes);
    assert [] + defs == defs;
    NothingApplied(manager.key, start);
    var ok, result, changeLog, p := ApplyStage(manager, start, [], defs, true, [], false);
    if !ok {
      ghost var t :| manager.calls == calls + t && FailsWithin(t, plan0);
      FailsLater([], t, plan0, plan1 + plan2);
      assert [] + t == t;
      assert [] + plan0 + (plan1 + plan2) == plan0 + plan1 + plan2;
      assert defs + (classes + rest) == defs + classes + rest;
      FailedPrefix(manager.key, start, manager.live, defs, classes + rest, p);
      return None, p * Ids(defs);
    }
    ok, result, changeLog, p := ApplyStage(manager, start, defs, classes, true, result, changeLog);
    if !ok {
      ghost var t :| manager.calls == calls + plan0 + t && FailsWithin(t, plan1);
      FailsLater(plan0, t, plan1, plan2);
      assert calls + plan0 + t == calls + (plan0 + t);
      FailedPrefix(manager.key, start, manager.live, defs + classes, rest, p);
      return None, p * Ids(defs + classes);
    }
    ok, result, changeLog, p := ApplyStage(manager, start, defs + classes, rest, false, result, changeLog);
    if !ok {
      ghost var t :| manager.calls == calls + plan0 + plan1 + t && FailsWithin(t, plan2);
      FailsLater(plan0 + plan1, t, plan2, []);
      assert plan0 + plan1 + plan2 + [] == plan0 + plan1 + plan2;
      assert calls + plan0 + plan1 + t == calls + (plan0 + plan1 + t);
      return None, p;
    }
    assert calls + plan0 + plan1 + plan2 == calls + (plan0 + plan1 + plan2);
    r, part := Some((changeLog, result)), {};
  }

  method SplitStages(
      objects: seq<Object>)
    returns (defStage: seq<Object>, classStage: seq<Object>, resStage: seq<Object>)
    ensures defStage == InStage(objects, Definitions)
    ensures classStage == InStage(objects, Classes)
    ensures resStage == InStage(objects, Rest)
  {
    hide StageOf;
    defStage, classStage, resStage := [], [], [];
    for i := 0 to |objects|
      invariant defStage == InStage(objects[..i], Definitions)
      invariant classStage == InStage(objects[..i], Classes)
      invariant resStage == InStage(objects[..i], Rest)
    {
      var u := objects[i];
      assert objects[..i + 1] == objects[..i] + [u];
      StageSnoc(objects[..i], u, Definitions);
      StageSnoc(objects[..i], u, Classes);
      StageSnoc(objects[..i], u, Rest);
      match StageOf(u)
      case Definitions => defStage := defStage + [u];
      case Classes => classStage := classStage + [u];
      case Rest => resStage := resStage + [u];
    }
    assert objects[..|objects|] == objects;
  }

  /**
   The staged apply, for every list of objects. When it succeeds, the calls made
   are exactly the plan, it reports one entry per object, and the drift flag
   says whether any entry is a change. When it fails, the failing call is the
   last one of the plan to be made. If no object is named twice, what it does
   and reports, or what it does in part, is that of a single apply of them all.
   */
  method ApplyObjects(manager: ResourceManager, objects: seq<Object>, leq: (Object, Object) -> bool)
    returns (r: Option<(bool, seq<ChangeSetEntry>)>, ghost part: set<ObjMetadata>, ghost rest: seq<Object>)
    requires TotalPreorder(leq)
    modifies manager
    ensures multiset(rest) == multiset(InStage(objects, Rest)) && Sorted(rest, leq)
    ensures r.Some? ==>
              && manager.calls ==
                 old(manager.calls) + Plan(InStage(objects, Definitions), InStage(objects, Classes), rest)
              && ReportsEach(objects, r.value.1)
              && (r.value.0 <==> Drifted(r.value.1))
    ensures r.Some? && DistinctIds(objects) ==>
              && manager.live == ApplyTo(manager.key, old(manager.live), Desired(objects))
              && Reports(manager.key, old(manager.live), objects, r.value.1)
              && (r.value.0 <==> manager.live != old(manager.live))
    ensures r.None? && DistinctIds(objects) ==>
              manager.live == ApplyTo(manager.key, old(manager.live), Restrict(Desired(objects), part))
    ensures r.None? ==> exists t ::
                && manager.calls == old(manager.calls) + t
                && (t == [] || FailsWithin(t, Plan(InStage(objects, Definitions), InStage(objects, Classes), rest)))
  {
    hide ApplyTo, Desired, DistinctIds, EntriesOf, Restrict, Progress, Reports, FailsWithin, Drifted, InStage, Plan;
    hide Sorted;
    hide Logged, ReportsEach;
    ghost var start, calls := manager.live, manager.calls;
    var defaultsOk := manager.SetNativeKindsDefaults(objects);
    var defStage, classStage, resStage := SplitStages(objects);
    var sorted := Sort(resStage, leq);
    rest := sorted;
    if !defaultsOk {
      NoPart(manager.key, start, Desired(objects));
      assert manager.calls == calls + [];
      return None, {}, rest;
    }
    StagesPartition(objects);
    if DistinctIds(objects) {
      ApplyPermutation(manager.key, start, objects, defStage + classStage + sorted);
    }
    r, part := ApplyInStages(manager, defStage, classStage, sorted);
    if r.Some? {
      SameReport(objects, defStage + classStage + sorted, r.value.1, r.value.0);
      if DistinctIds(objects) {
        ProgressDone(manager.key, start, manager.live, defStage + classStage + sorted, r.value.1);
        SameReports(manager.key, start, objects, defStage + classStage + sorted, r.value.1);
        DriftIsChange(manager.key, start, objects, r.value.1);
      }
    }
  }

  /** The same objects in another order are reported alike. */
  lemma SameReport(a: seq<Object>, b: seq<Object>, result: seq<ChangeSetEntry>, changeLog: bool)
    requires multiset(a) == multiset(b) && Logged(b, result, changeLog)
    ensures ReportsEach(a, result) && (changeLog <==> Drifted(result))
  {
    MetasPermutation(a, b);
  }

  lemma MetasPermutation(a: seq<Object>, b: seq<Object>)
    requires multiset(a) == multiset(b)
    ensures multiset(Metas(a)) == multiset(Metas(b))
  {
    var meta := (o: Object) => o.meta;
    MapPermutation(a, b, meta);
    assert Map(a, meta) == Metas(a);
    assert Map(b, meta) == Metas(b);
  }

  lemma SameReports(k: NamespacedName, live: LiveObjects, a: seq<Object>, b: seq<Object>, result: seq<ChangeSetEntry>)
    requires multiset(EntriesOf(k, live, a)) == multiset(EntriesOf(k, live, b)) && Reports(k, live, b, result)
    ensures Reports(k, live, a, result)
  {
    hide EntriesOf;
  }

  lemma ProgressDone(
      k: NamespacedName, start: LiveObjects, live: LiveObjects, done: seq<Object>, result: seq<ChangeSetEntry>)
    requires Progress(k, start, live, done, result)
    ensures live == ApplyTo(k, start, Desired(done))
    ensures Reports(k, start, done, result)
  {
  }

  lemma NoPart(k: NamespacedName, live: LiveObjects, d: map<ObjMetadata, Manifest>)
    ensures ApplyTo(k, live, Restrict(d, {})) == live
  {
  }

  /** The i-th call comes after a successful apply of these objects and a successful wait for all of them. */
  predicate After(calls: seq<Call>, i: nat, objs: seq<Object>)
    requires i <= |calls|
  {
    exists a, b | 0 <= a < b < i ::
      calls[a] == ApplyCall(objs, true) && calls[b] == WaitCall(Ids(objs), true)
  }

  lemma Prefixed(calls: seq<Call>, i: nat, before: seq<Call>, objs: seq<Object>, after: seq<Call>)
    requires i <= |calls| && objs != [] && before + StagePlan(objs, true) + after == calls[..i]
    ensures After(calls, i, objs)
  {
    var a, b := |before|, |before| + 1;
    assert calls[..i][a] == calls[a] == StagePlan(objs, true)[0];
    assert calls[..i][b] == calls[b] == StagePlan(objs, true)[1];
  }

  /** In the plan, an apply of the last two stages comes after the stages before it. */
  lemma PlanInOrder(defs: seq<Object>, classes: seq<Object>, rest: seq<Object>, i: nat)
    requires i < |Plan(defs, classes, rest)| && Plan(defs, classes, rest)[i].ApplyCall?
    ensures
      var plan := Plan(defs, classes, rest);
      || plan[i].objs == defs
      || (plan[i].objs == classes && (defs != [] ==> After(plan, i, defs)))
      || (plan[i].objs == rest && (defs != [] ==> After(plan, i, defs)) && (classes != [] ==> After(plan, i, classes)))
  {
    hide After;
    var plan := Plan(defs, classes, rest);
    var p0, p1, p2 := StagePlan(defs, true), StagePlan(classes, true), StagePlan(rest, false);
    assert plan == p0 + p1 + p2;
    if i < |p0| {
      assert plan[i] == p0[i];
    } else if i < |p0 + p1| {
      assert plan[i] == p1[i - |p0|] && i == |p0|;
      assert plan[..i] == [] + p0 + [];
      if defs != [] {
        Prefixed(plan, i, [], defs, []);
      }
    } else {
      assert plan[i] == p2[i - |p0 + p1|] && i == |p0 + p1|;
      assert plan[..i] == [] + p0 + p1 == p0 + p1 + [];
      if defs != [] {
        Prefixed(plan, i, [], defs, p1);
      }
      if classes != [] {
        Prefixed(plan, i, p0, classes, []);
      }
    }
  }

  lemma AfterInPrefix(t: seq<Call>, plan: seq<Call>, i: nat, objs: seq<Object>)
    requires i <= |t| && i <= |plan| && t[..i] == plan[..i] && After(plan, i, objs)
    ensures After(t, i, objs)
  {
    var a, b :| 0 <= a < b < i && plan[a] == ApplyCall(objs, true) && plan[b] == WaitCall(Ids(objs), true);
    assert t[a] == t[..i][a] == plan[..i][a] && t[b] == t[..i][b] == plan[..i][b];
  }

  /** These are the calls of a staged apply that succeeded, or that failed at the last of them. */
  predicate Follows(t: seq<Call>, plan: seq<Call>) {
    t == plan || FailsWithin(t, plan)
  }

  /**
   Stages in order, for every list of objects, whether the apply succeeds or
   fails: an object that is no definition is applied only after all definitions,
   if any, were applied and waited for, and one that is no class either only
   after all classes, if any, were as well.
   */
  lemma StagesInOrder(objects: seq<Object>, rest: seq<Object>, t: seq<Call>, i: nat, o: Object)
    requires multiset(rest) == multiset(InStage(objects, Rest))
    requires Follows(t, Plan(InStage(objects, Definitions), InStage(objects, Classes), rest))
    requires i < |t| && t[i].ApplyCall? && o in t[i].objs
    ensures
      var defs, classes := InStage(objects, Definitions), InStage(objects, Classes);
      && o in objects
      && (StageOf(o) != Definitions && defs != [] ==> After(t, i, defs))
      && (StageOf(o) == Rest && classes != [] ==> After(t, i, classes))
  {
    hide StageOf, InStage, Plan, After;
    var defs, classes := InStage(objects, Definitions), InStage(objects, Classes);
    var plan := Plan(defs, classes, rest);
    StageMembers(objects, Definitions);
    StageMembers(objects, Classes);
    StageMembers(objects, Rest);
    forall x ensures x in rest <==> x in InStage(objects, Rest) {
      assert x in multiset(rest) <==> x in multiset(InStage(objects, Rest));
    }
    SamePrefix(t, plan, i);
    PlanInOrder(defs, classes, rest, i);
    if After(plan, i, defs) {
      AfterInPrefix(t, plan, i, defs);
    }
    if After(plan, i, classes) {
      AfterInPrefix(t, plan, i, classes);
    }
  }

  lemma SamePrefix(t: seq<Call>, plan: seq<Call>, i: nat)
    requires Follows(t, plan) && i < |t| && t[i].ApplyCall?
    ensures i < |plan| && plan[i].ApplyCall? && plan[i].objs == t[i].objs && t[..i] == plan[..i]
  {
    if FailsWithin(t, plan) {
      var n := |t| - 1;
      if i < n {
        assert t[i] == t[..n][i] == plan[..n][i];
        assert t[..i] == t[..n][..i] == plan[..n][..i] == plan[..i];
      }
    }
  }

  lemma PlanSucceeds(defs: seq<Object>, classes: seq<Object>, rest: seq<Object>)
    ensures forall c :: c in Plan(defs, classes, rest) ==> c.ok
  {
    StageSucceeds(defs, true);
    StageSucceeds(classes, true);
    StageSucceeds(rest, false);
    hide StagePlan;
  }

  lemma StageSucceeds(objs: seq<Object>, wait: bool)
    ensures forall c :: c in StagePlan(objs, wait) ==> c.ok
  {
  }

  /** The apply stops at the first call that fails, and goes through the plan when none does. */
  lemma StopsAtFailure(t: seq<Call>, defs: seq<Object>, classes: seq<Object>, rest: seq<Object>)
    requires Follows(t, Plan(defs, classes, rest))
    ensures forall j | 0 <= j < |t| - 1 :: t[j].ok
    ensures t == Plan(defs, classes, rest) <==> t == [] || t[|t| - 1].ok
  {
    hide Plan;
    PlanSucceeds(defs, classes, rest);
    var plan, n := Plan(defs, classes, rest), |t| - 1;
    if FailsWithin(t, plan) {
      forall j | 0 <= j < n ensures t[j].ok {
        assert t[j] == t[..n][j] == plan[..n][j] == plan[j];
      }
    } else if t != [] {
      assert t[n] in plan;
    }
  }
}
