/**
 The inventory of applied objects: how a change set is recorded, read back, and
 compared with a later one.
 */
module Inventory {
  import opened Wrappers
  import opened ObjectIds
  import opened ChangeSets
  import opened Sorting

  datatype ResourceRef = ResourceRef(id: string, version: string)

  /** An object as far as deleting it needs to know. */
  datatype Unstructured = Unstructured(meta: ObjMetadata, version: string)

  class ResourceInventory {
    var entries: seq<ResourceRef>

    constructor ()
      ensures entries == []
    {
      entries := [];
    }

    method DeepCopyInto(out: ResourceInventory)
      modifies out
      ensures out.entries == old(entries)
    {
      out.entries := entries;
    }
  }

  function RefOf(e: ChangeSetEntry): ResourceRef {
    ResourceRef(Print(e.meta), e.groupVersion)
  }

  function Refs(es: seq<ChangeSetEntry>): (refs: seq<ResourceRef>)
  {
    seq(|es|, i requires 0 <= i < |es| => RefOf(es[i]))
  }

  predicate AllParse(refs: seq<ResourceRef>) {
    forall r :: r in refs ==> Parse(r.id).Success?
  }

  /** The identities an inventory holds. */
  function MetaSet(refs: seq<ResourceRef>): set<ObjMetadata> {
    set r | r in refs && Parse(r.id).Success? :: Parse(r.id).value
  }

  function MetaSeq(refs: seq<ResourceRef>): seq<ObjMetadata>
    requires AllParse(refs)
  {
    seq(|refs|, i requires 0 <= i < |refs| => Parse(refs[i].id).value)
  }

  function Objects(refs: seq<ResourceRef>): seq<Unstructured>
    requires AllParse(refs)
  {
    seq(|refs|, i requires 0 <= i < |refs| => Unstructured(Parse(refs[i].id).value, refs[i].version))
  }

  /** The version recorded by the first entry with this ID, or "" if there is none. */
  function VersionOf(refs: seq<ResourceRef>, id: string): string {
    if refs == [] then ""
    else if refs[0].id == id then refs[0].version
    else VersionOf(refs[1..], id)
  }

  method AddChangeSet(inv: ResourceInventory, changes: Option<seq<ChangeSetEntry>>)
    modifies inv
    ensures changes.None? ==> inv.entries == old(inv.entries)
    ensures changes.Some? ==> inv.entries == old(inv.entries) + Refs(changes.value)
  {
    if changes.None? {
      return;
    }
    var set_ := changes.value;
    for i := 0 to |set_|
      invariant inv.entries == old(inv.entries) + Refs(set_[..i])
    {
      inv.entries := inv.entries + [RefOf(set_[i])];
      assert Refs(set_[..i + 1]) == Refs(set_[..i]) + [RefOf(set_[i])];
    }
    assert set_[..|set_|] == set_;
  }

  /** The identities in order, up to the first entry that does not parse. */
  method ListMetadata(inv: ResourceInventory) returns (metas: seq<ObjMetadata>, err: bool)
    ensures err <==> !AllParse(inv.entries)
    ensures |metas| <= |inv.entries| && AllParse(inv.entries[..|metas|])
    ensures metas == MetaSeq(inv.entries[..|metas|])
    ensures err ==> |metas| < |inv.entries| && Parse(inv.entries[|metas|].id).Failure?
    ensures !err ==> metas == MetaSeq(inv.entries)
  {
    metas := [];
    err := false;
    for i := 0 to |inv.entries|
      invariant |metas| == i
      invariant AllParse(inv.entries[..i]) && metas == MetaSeq(inv.entries[..i])
    {
      var m := Parse(inv.entries[i].id);
      if m.Failure? {
        return metas, true;
      }
      metas := metas + [m.value];
      assert inv.entries[..i + 1] == inv.entries[..i] + [inv.entries[i]];
    }
    assert inv.entries[..|inv.entries|] == inv.entries;
  }

  method List(inv: ResourceInventory, leq: (Unstructured, Unstructured) -> bool) returns (r: Result<seq<Unstructured>>)
    requires TotalPreorder(leq)
    ensures r.Success? <==> AllParse(inv.entries)
    ensures r.Success? ==> Sorted(r.value, leq) && multiset(r.value) == multiset(Objects(inv.entries))
  {
    var objects: seq<Unstructured> := [];
    for i := 0 to |inv.entries|
      invariant AllParse(inv.entries[..i]) && objects == Objects(inv.entries[..i])
    {
      var m := Parse(inv.entries[i].id);
      if m.Failure? {
        return Failure(m.error);
      }
      objects := objects + [Unstructured(m.value, inv.entries[i].version)];
      assert inv.entries[..i + 1] == inv.entries[..i] + [inv.entries[i]];
    }
    assert inv.entries[..|inv.entries|] == inv.entries;
    objects := Sort(objects, leq);
    r := Success(objects);
  }

  predicate Distinct<T(==)>(s: seq<T>) {
    forall i, j | 0 <= i < j < |s| :: s[i] != s[j]
  }

  /** Set difference of two lists of identities, in no particular order. */
  method SetDifference(a: seq<ObjMetadata>, b: seq<ObjMetadata>) returns (d: seq<ObjMetadata>)
    ensures Distinct(d)
    ensures forall m :: m in d <==> m in a && m !in b
  {
    var rest := (set m | m in a) - (set m | m in b);
    d := [];
    while rest != {}
      invariant Distinct(d)
      invariant forall m :: m in a && m !in b <==> m in d || m in rest
      invariant forall m :: m in d ==> m !in rest
      decreases rest
    {
      var m :| m in rest;
      d := d + [m];
      rest := rest - {m};
    }
  }

  predicate DistinctMetas(objs: seq<Unstructured>) {
    forall i, j | 0 <= i < j < |objs| :: objs[i].meta != objs[j].meta
  }

  /** The objects of `inv` that `target` no longer has. */
  method Diff(inv: ResourceInventory, target: ResourceInventory, leq: (Unstructured, Unstructured) -> bool)
    returns (r: Result<seq<Unstructured>>)
    requires TotalPreorder(leq)
    ensures r.Success? <==> AllParse(inv.entries) && AllParse(target.entries)
    ensures r.Success? ==> Sorted(r.value, leq) && DistinctMetas(r.value)
    ensures r.Success? ==> (set o | o in r.value :: o.meta) == MetaSet(inv.entries) - MetaSet(target.entries)
    ensures r.Success? ==> forall o :: o in r.value ==> o.version == VersionOf(inv.entries, Print(o.meta))
  {
    var aList, aErr := ListMetadata(inv);
    if aErr {
      return Failure("unable to parse stored object metadata");
    }
    var bList, bErr := ListMetadata(target);
    if bErr {
      return Failure("unable to parse stored object metadata");
    }
    MetaSeqIsMetaSet(inv.entries);
    MetaSeqIsMetaSet(target.entries);
    var list := SetDifference(aList, bList);
    var objects: seq<Unstructured> := [];
    if |list| == 0 {
      return Success(objects);
    }
    for i := 0 to |list|
      invariant |objects| == i
      invariant forall j | 0 <= j < i :: objects[j] == Unstructured(list[j], VersionOf(inv.entries, Print(list[j])))
    {
      objects := objects + [Unstructured(list[i], VersionOf(inv.entries, Print(list[i])))];
    }
    var sorted := Sort(objects, leq);
    DistinctPermutation(objects, sorted, (x: Unstructured, y: Unstructured) => x.meta == y.meta);
    forall o ensures o in sorted <==> o in objects {
      assert o in multiset(sorted) <==> o in multiset(objects);
    }
    forall m ensures m in (set o | o in sorted :: o.meta) <==> m in list {
      if m in list {
        var j :| 0 <= j < |list| && list[j] == m;
        assert objects[j] in sorted;
      }
    }
    r := Success(sorted);
  }

  lemma MetaSeqIsMetaSet(refs: seq<ResourceRef>)
    requires AllParse(refs)
    ensures forall m :: m in MetaSeq(refs) <==> m in MetaSet(refs)
  {
    forall m | m in MetaSet(refs) ensures m in MetaSeq(refs) {
      var i :| 0 <= i < |refs| && Parse(refs[i].id).value == m;
      assert MetaSeq(refs)[i] == m;
    }
  }

  predicate WellFormedEntries(es: seq<ChangeSetEntry>) {
    forall e :: e in es ==> WellFormed(e.meta)
  }

  /** Recording a change set and listing it gives its identities back, in order, with their versions. */
  lemma RecordedRoundTrip(es: seq<ChangeSetEntry>)
    requires WellFormedEntries(es)
    ensures AllParse(Refs(es))
    ensures |MetaSeq(Refs(es))| == |es|
    ensures forall i | 0 <= i < |es| :: MetaSeq(Refs(es))[i] == es[i].meta
    ensures forall i | 0 <= i < |es| :: Objects(Refs(es))[i] == Unstructured(es[i].meta, es[i].groupVersion)
    ensures MetaSet(Refs(es)) == set e | e in es :: e.meta
  {
    forall i | 0 <= i < |es| ensures Parse(Refs(es)[i].id) == Success(es[i].meta) {
      assert es[i] in es;
      RoundTrip(es[i].meta);
    }
    MetaSeqIsMetaSet(Refs(es));
    forall m ensures m in MetaSet(Refs(es)) <==> m in set e | e in es :: e.meta {
      if m in MetaSet(Refs(es)) {
        assert m in MetaSeq(Refs(es));
      }
      if e :| e in es && e.meta == m {
        var i :| 0 <= i < |es| && es[i] == e;
        assert MetaSeq(Refs(es))[i] == m;
      }
    }
  }

  /**
   The version search never falls through for a recorded identity: it gives the
   version of the first entry with that ID.
   */
  lemma {:induction false} VersionOfFirst(refs: seq<ResourceRef>, m: ObjMetadata) returns (i: nat)
    requires m in MetaSet(refs)
    ensures i < |refs| && refs[i].id == Print(m)
    ensures VersionOf(refs, Print(m)) == refs[i].version
    ensures forall j | 0 <= j < i :: refs[j].id != Print(m)
  {
    var r :| r in refs && Parse(r.id).Success? && Parse(r.id).value == m;
    PrintParse(r.id);
    if refs[0].id == Print(m) {
      i := 0;
    } else {
      assert r in refs[1..];
      i := VersionOfFirst(refs[1..], m);
      i := i + 1;
    }
  }

  /** Nothing is stale when every old identity was applied again, whatever versions the two record. */
  lemma VersionChangeIsNotStale(old_: seq<ResourceRef>, new_: seq<ResourceRef>)
    requires AllParse(old_)
    requires forall r :: r in old_ ==> exists r' :: r' in new_ && r'.id == r.id
    ensures MetaSet(old_) - MetaSet(new_) == {}
  {
    forall m | m in MetaSet(old_) ensures m in MetaSet(new_) {
      var r :| r in old_ && Parse(r.id).Success? && Parse(r.id).value == m;
      var r' :| r' in new_ && r'.id == r.id;
    }
  }
}
