/**
 The live objects of a cluster, and what the resource manager's calls do to
 them. These are the assumed contracts of the server-side apply library.
 */
module Cluster {
  import opened Wrappers
  import opened ObjectIds
  import opened ChangeSets
  import opened Inventory
  import opened Api
  import opened Manifests

  /** A live object: whose owner labels it carries, its opt-out labels, and its content. */
  datatype Live = Live(
    owner: Option<NamespacedName>,
    reconcileDisabled: bool,
    pruneDisabled: bool,
    ssaIgnored: bool,
    manifest: Manifest)
  {
    predicate SkipsApply() {
      reconcileDisabled || ssaIgnored
    }

    predicate SkipsDelete() {
      reconcileDisabled || pruneDisabled
    }
  }

  type LiveObjects = map<ObjMetadata, Live>

  /** The objects that carry this LanguageModel's owner labels. */
  function Owned(k: NamespacedName, live: LiveObjects): set<ObjMetadata> {
    set m | m in live && live[m].owner == Some(k)
  }

  /** The content wanted for each identity. */
  function Desired(objs: seq<Object>): (d: map<ObjMetadata, Manifest>)
    ensures d.Keys == Ids(objs)
  {
    if objs == [] then map[]
    else
      assert Ids(objs) == {objs[0].meta} + Ids(objs[1..]) by {
        assert objs == [objs[0]] + objs[1..];
      }
      Desired(objs[1..])[objs[0].meta := objs[0].manifest]
  }

  function Restrict(d: map<ObjMetadata, Manifest>, part: set<ObjMetadata>): map<ObjMetadata, Manifest> {
    map m | m in d && m in part :: d[m]
  }

  predicate Skipped(live: LiveObjects, m: ObjMetadata) {
    m in live && live[m].SkipsApply()
  }

  /** A configured object keeps the opt-out labels it had, and becomes ours. */
  function Configure(k: NamespacedName, live: LiveObjects, m: ObjMetadata, manifest: Manifest): Live {
    if m in live then live[m].(owner := Some(k), manifest := manifest)
    else Live(Some(k), false, false, false, manifest)
  }

  /** Applying makes every wanted object live as wanted, except those that opt out. */
  function ApplyTo(k: NamespacedName, live: LiveObjects, d: map<ObjMetadata, Manifest>): LiveObjects {
    live + map m | m in d && !Skipped(live, m) :: Configure(k, live, m, d[m])
  }

  predicate Deletable(k: NamespacedName, l: Live) {
    l.owner == Some(k) && !l.SkipsDelete()
  }

  /** Deleting removes exactly the targets that carry the owner labels and no opt-out label. */
  function DeleteFrom(k: NamespacedName, live: LiveObjects, targets: set<ObjMetadata>): LiveObjects {
    map m | m in live && !(m in targets && Deletable(k, live[m])) :: live[m]
  }

  /** The targets a complete deletion leaves behind, because they opt out of it. */
  function Kept(k: NamespacedName, live: LiveObjects, targets: set<ObjMetadata>): set<ObjMetadata> {
    set m | m in targets && m in Owned(k, live) && live[m].SkipsDelete()
  }

  function ActionOn(k: NamespacedName, live: LiveObjects, o: Object): Action {
    if o.meta !in live then CreatedAction
    else if live[o.meta].SkipsApply() then SkippedAction
    else if live[o.meta].owner == Some(k) && live[o.meta].manifest == o.manifest then UnchangedAction
    else ConfiguredAction
  }

  function EntryOf(k: NamespacedName, live: LiveObjects, o: Object): ChangeSetEntry {
    ChangeSetEntry(o.meta, o.version, ActionOn(k, live, o))
  }

  function EntriesOf(k: NamespacedName, live: LiveObjects, objs: seq<Object>): seq<ChangeSetEntry> {
    seq(|objs|, i requires 0 <= i < |objs| => EntryOf(k, live, objs[i]))
  }

  /** What a successful apply reports: one entry per object, in any order. */
  predicate Reports(k: NamespacedName, live: LiveObjects, objs: seq<Object>, entries: seq<ChangeSetEntry>) {
    multiset(entries) == multiset(EntriesOf(k, live, objs))
  }

  /** With distinct identities, every object's own content is the one wanted for it. */
  lemma {:induction false} DesiredLookup(objs: seq<Object>)
    requires DistinctIds(objs)
    ensures forall o :: o in objs ==> o.meta in Desired(objs) && Desired(objs)[o.meta] == o.manifest
  {
    if objs != [] {
      DesiredLookup(objs[1..]);
      forall o | o in objs ensures o.meta in Desired(objs) && Desired(objs)[o.meta] == o.manifest {
        var i :| 0 <= i < |objs| && objs[i] == o;
        if i > 0 {
          assert o in objs[1..] && objs[0].meta != objs[i].meta;
        }
      }
    }
  }

  /** The reported entries name each object once, so the inventory made of them holds the objects' identities. */
  lemma ReportedIds(k: NamespacedName, live: LiveObjects, objs: seq<Object>, entries: seq<ChangeSetEntry>)
    requires Reports(k, live, objs, entries)
    ensures |entries| == |objs|
    ensures forall e :: e in entries <==> exists o :: o in objs && e == EntryOf(k, live, o)
    ensures (set e | e in entries :: e.meta) == Ids(objs)
  {
    var expected := EntriesOf(k, live, objs);
    assert |multiset(entries)| == |multiset(expected)|;
    forall e ensures e in entries <==> e in expected {
      assert e in multiset(entries) <==> e in multiset(expected);
    }
    forall o | o in objs ensures EntryOf(k, live, o) in entries {
      var i :| 0 <= i < |objs| && objs[i] == o;
      assert expected[i] == EntryOf(k, live, o);
    }
    forall m ensures m in (set e | e in entries :: e.meta) <==> m in Ids(objs) {
      if m in Ids(objs) {
        var o :| o in objs && o.meta == m;
        assert EntryOf(k, live, o) in entries;
      }
    }
  }

  lemma RecordedIds(k: NamespacedName, live: LiveObjects, objs: seq<Object>, entries: seq<ChangeSetEntry>)
    requires Reports(k, live, objs, entries)
    requires forall m :: m in Ids(objs) ==> WellFormed(m)
    ensures AllParse(Refs(entries))
    ensures MetaSet(Refs(entries)) == Ids(objs)
  {
    ReportedIds(k, live, objs, entries);
    forall e | e in entries ensures WellFormed(e.meta) {
      assert e.meta in Ids(objs);
    }
    RecordedRoundTrip(entries);
  }
}
