/**
 From a LanguageModel to its source and back: resolving the reference, the index
 that finds the LanguageModels of a source, and the filter on source events.
 */
module Sources {
  import opened Wrappers
  import opened Inventory
  import opened Api

  const KINDS: set<string> := {"OCIRepository", "GitRepository", "Bucket"}

  datatype Resolution =
    | Denied
    | Unsupported
    | Lookup(kind: string, source: NamespacedName)

  /** The reference's namespace, or the LanguageModel's own when it names none. */
  function SourceNamespace(k: NamespacedName, ref: SourceReference): string {
    if ref.namespace != "" then ref.namespace else k.namespace
  }

  /** Which source object `getSource` asks the API server for, if any. */
  function Resolve(noCrossNamespaceRefs: bool, k: NamespacedName, ref: SourceReference): Resolution {
    var namespace_ := SourceNamespace(k, ref);
    if noCrossNamespaceRefs && namespace_ != k.namespace then Denied
    else if ref.kind in KINDS then Lookup(ref.kind, NamespacedName(namespace_, ref.name))
    else Unsupported
  }

  /**
   What resolving comes to, in terms of the reference itself: it is denied
   exactly when it names another namespace and that is blocked, and otherwise
   looked up, exactly when its kind is supported, by its own name and in the
   namespace it names, or in the LanguageModel's if it names none.
   */
  lemma ResolveExactly(noCross: bool, k: NamespacedName, ref: SourceReference)
    ensures Resolve(noCross, k, ref).Denied? <==> noCross && ref.namespace != "" && ref.namespace != k.namespace
    ensures Resolve(noCross, k, ref).Lookup? <==>
            !(noCross && ref.namespace != "" && ref.namespace != k.namespace) &&
            ref.kind in {"OCIRepository", "GitRepository", "Bucket"}
    ensures forall kind, n | Resolve(noCross, k, ref) == Lookup(kind, n) ::
              && kind == ref.kind && n.name == ref.name
              && (ref.namespace == "" ==> n.namespace == k.namespace)
              && (ref.namespace != "" ==> n.namespace == ref.namespace)
  {
  }

  lemma LookupByKind(noCross: bool, k: NamespacedName, ref: SourceReference)
    ensures Resolve(noCross, k, ref).Lookup? ==> ref.kind in KINDS && Resolve(false, k, ref) == Resolve(noCross, k, ref)
    ensures ref.kind in KINDS ==> Resolve(false, k, ref).Lookup?
  {
  }

  // ---------- the index ----------

  function KeyOf(n: NamespacedName): string {
    n.namespace + "/" + n.name
  }

  /** The index entries of one LanguageModel under the index for `kind`. */
  function IndexBy(kind: string, k: NamespacedName, ref: SourceReference): seq<string> {
    if ref.kind == kind then [KeyOf(NamespacedName(SourceNamespace(k, ref), ref.name))] else []
  }

  datatype Item = Item(name: NamespacedName, ref: SourceReference)

  predicate DistinctItems(items: seq<Item>) {
    forall i, j | 0 <= i < j < |items| :: items[i].name != items[j].name
  }

  predicate IsObjectName(n: NamespacedName) {
    '/' !in n.namespace && '/' !in n.name
  }

  /**
   A key made of a real object's name is no other pair's key, even of pairs
   that are not object names themselves.
   */
  lemma KeyInjective(a: NamespacedName, b: NamespacedName)
    requires IsObjectName(a)
    requires KeyOf(a) == KeyOf(b)
    ensures a == b
  {
    var s := KeyOf(a);
    assert s[|b.namespace|] == '/';
    assert forall i | 0 <= i < |a.namespace| :: s[i] == a.namespace[i] != '/';
    assert forall i | |a.namespace| < i < |s| :: s[i] == a.name[i - |a.namespace| - 1] != '/';
    assert |b.namespace| == |a.namespace|;
    assert a.namespace == s[..|a.namespace|] == b.namespace;
    assert a.name == s[|a.namespace| + 1..] == b.name;
  }

  /** The cached list query: the items with the key among their index entries. */
  method ListMatching(items: seq<Item>, kind: string, key: string) returns (matching: seq<Item>)
    requires DistinctItems(items)
    ensures DistinctItems(matching)
    ensures forall x :: x in matching <==> x in items && key in IndexBy(kind, x.name, x.ref)
  {
    matching := [];
    for i := 0 to |items|
      invariant DistinctItems(matching)
      invariant forall x :: x in matching <==> x in items[..i] && key in IndexBy(kind, x.name, x.ref)
    {
      if key in IndexBy(kind, items[i].name, items[i].ref) {
        matching := matching + [items[i]];
      }
    }
  }

  /** The LanguageModels whose reference resolves to this source. */
  ghost predicate RefersTo(x: Item, kind: string, source: NamespacedName) {
    Resolve(false, x.name, x.ref) == Lookup(kind, source)
  }

  /** One of these LanguageModels has this name and refers to the source. */
  ghost predicate HasReference(items: seq<Item>, k: NamespacedName, kind: string, source: NamespacedName) {
    exists x :: x in items && x.name == k && RefersTo(x, kind, source)
  }

  /** The index finds an item exactly when resolving its reference does. */
  lemma IndexAgrees(x: Item, kind: string, source: NamespacedName)
    requires IsObjectName(source) && kind in KINDS
    ensures KeyOf(source) in IndexBy(kind, x.name, x.ref) <==> RefersTo(x, kind, source)
  {
    if KeyOf(source) in IndexBy(kind, x.name, x.ref) {
      KeyInjective(source, NamespacedName(SourceNamespace(x.name, x.ref), x.ref.name));
    }
  }

  /** One request for each LanguageModel that refers to the source, and none while it has no artifact. */
  method RequestsForRevisionChangeOf(items: seq<Item>, kind: string, source: NamespacedName, artifact: Option<Artifact>)
    returns (requests: seq<NamespacedName>)
    requires DistinctItems(items)
    requires IsObjectName(source) && kind in KINDS
    ensures artifact.None? ==> requests == []
    ensures artifact.Some? ==> forall k :: k in requests <==> HasReference(items, k, kind, source)
    ensures Distinct(requests)
  {
    if artifact.None? {
      return [];
    }
    var list := ListMatching(items, kind, KeyOf(source));
    var reqs := new NamespacedName[|list|](_ => NamespacedName("", ""));
    for i := 0 to |list|
      invariant forall j | 0 <= j < i :: reqs[j] == list[j].name
    {
      reqs[i] := reqs[i].(name := list[i].name.name);
      reqs[i] := reqs[i].(namespace := list[i].name.namespace);
    }
    requests := reqs[..];
    forall x | x in items ensures x in list <==> RefersTo(x, kind, source) {
      IndexAgrees(x, kind, source);
    }
    forall k ensures k in requests <==> HasReference(items, k, kind, source) {
      if k in requests {
        var j :| 0 <= j < |requests| && requests[j] == k;
        assert list[j] in items;
      }
      if x :| x in items && x.name == k && RefersTo(x, kind, source) {
        var j :| 0 <= j < |list| && list[j] == x;
        assert requests[j] == k;
      }
    }
  }

  // ---------- the event filter ----------

  /** What an update event can carry. */
  datatype EventObject = Nil | NotASource | Source(revision: Option<string>)

  predicate Update(old_: EventObject, new_: EventObject) {
    if old_.Nil? || new_.Nil? then false
    else if old_.NotASource? || new_.NotASource? then false
    else if old_.revision.None? && new_.revision.Some? then true
    else if old_.revision.Some? && new_.revision.Some? && old_.revision != new_.revision then true
    else false
  }

  /** A source's artifact revision over time; each change of state is one update event. */
  predicate Fires(states: seq<Option<string>>, i: nat)
    requires 0 < i < |states|
  {
    Update(Source(states[i - 1]), Source(states[i]))
  }

  /** A source without an artifact has nothing to announce, and losing one announces nothing. */
  lemma FiresOnlyOnNewRevision(states: seq<Option<string>>, i: nat)
    requires 0 < i < |states|
    ensures Fires(states, i) <==> states[i].Some? && states[i] != states[i - 1]
  {
  }

  /**
   Whenever the source has an artifact, the last event that passed the filter
   carried exactly its revision, at the moment that revision became current.
   */
  lemma {:induction false} NoMissedRevision(states: seq<Option<string>>, i: nat) returns (j: nat)
    requires i < |states| && states[0] == None && states[i].Some?
    ensures 0 < j <= i && Fires(states, j) && states[j] == states[i]
    ensures forall t | j <= t <= i :: states[t] == states[i]
    ensures forall t | j < t <= i :: !Fires(states, t)
    ensures states[j - 1] != states[i]
  {
    FiresOnlyOnNewRevision(states, i);
    hide Fires;
    if states[i - 1] == states[i] {
      j := NoMissedRevision(states, i - 1);
    } else {
      j := i;
    }
  }

  /** A LanguageModel that refers to the source at every moment. */
  ghost predicate Throughout(models: seq<seq<Item>>, k: NamespacedName, kind: string, source: NamespacedName) {
    forall t | 0 <= t < |models| :: HasReference(models[t], k, kind, source)
  }

  /** The requests an event enqueues, as the map function produces them. */
  ghost predicate Enqueues(items: seq<Item>, kind: string, source: NamespacedName, k: NamespacedName) {
    exists x :: x in items && x.name == k && KeyOf(source) in IndexBy(kind, x.name, x.ref)
  }

  /**
   Filter and index together: a LanguageModel that refers to the source
   throughout was enqueued when the current revision became current.
   */
  lemma EveryRevisionEnqueued(
      states: seq<Option<string>>, models: seq<seq<Item>>, i: nat,
      k: NamespacedName, kind: string, source: NamespacedName)
    returns (j: nat)
    requires |models| == |states| && i < |states| && states[0] == None && states[i].Some?
    requires IsObjectName(source) && kind in KINDS
    requires Throughout(models, k, kind, source)
    ensures 0 < j <= i && Fires(states, j) && Enqueues(models[j], kind, source, k)
    ensures forall t | j <= t <= i :: states[t] == states[i]
  {
    j := NoMissedRevision(states, i);
    assert HasReference(models[j], k, kind, source);
    var x :| x in models[j] && x.name == k && RefersTo(x, kind, source);
    IndexAgrees(x, kind, source);
  }
}
