/** Sorting by a total preorder: ties may come out in any order. */
module Sorting {

  ghost predicate TotalPreorder<T(!new)>(leq: (T, T) -> bool) {
    && (forall x, y :: leq(x, y) || leq(y, x))
    && (forall x, y, z :: leq(x, y) && leq(y, z) ==> leq(x, z))
  }

  ghost predicate Sorted<T>(s: seq<T>, leq: (T, T) -> bool) {
    forall i, j | 0 <= i < j < |s| :: leq(s[i], s[j])
  }

  /** How many elements at the front are to stay before `x`. */
  method Position<T(!new)>(s: seq<T>, x: T, leq: (T, T) -> bool) returns (i: nat)
    requires TotalPreorder(leq)
    ensures i <= |s| && forall j | 0 <= j < i :: leq(s[j], x)
    ensures i < |s| ==> leq(x, s[i])
  {
    i := 0;
    while i < |s| && !leq(x, s[i])
      invariant i <= |s|
      invariant forall j | 0 <= j < i :: leq(s[j], x)
    {
      i := i + 1;
    }
  }

  method Insert<T(!new)>(s: seq<T>, x: T, leq: (T, T) -> bool) returns (r: seq<T>)
    requires TotalPreorder(leq) && Sorted(s, leq)
    ensures Sorted(r, leq)
    ensures multiset(r) == multiset(s) + multiset{x}
  {
    hide Sorted, TotalPreorder;
    var i := Position(s, x, leq);
    r := s[..i] + [x] + s[i..];
    assert s == s[..i] + s[i..];
    InsertKeepsSorted(s, x, i, leq);
  }

  lemma InsertKeepsSorted<T(!new)>(s: seq<T>, x: T, i: nat, leq: (T, T) -> bool)
    requires TotalPreorder(leq) && Sorted(s, leq) && i <= |s|
    requires forall j | 0 <= j < i :: leq(s[j], x)
    requires i < |s| ==> leq(x, s[i])
    ensures Sorted(s[..i] + [x] + s[i..], leq)
  {
    var r := s[..i] + [x] + s[i..];
    assert forall j | 0 <= j < i :: r[j] == s[j];
    assert forall j | i < j < |r| :: r[j] == s[j - 1];
    assert forall j | i < j < |r| :: leq(x, r[j]);
  }

  method Sort<T(!new)>(s: seq<T>, leq: (T, T) -> bool) returns (r: seq<T>)
    requires TotalPreorder(leq)
    ensures Sorted(r, leq)
    ensures multiset(r) == multiset(s)
  {
    r := [];
    for i := 0 to |s|
      invariant Sorted(r, leq)
      invariant multiset(r) == multiset(s[..i])
    {
      r := Insert(r, s[i], leq);
      assert s[..i + 1] == s[..i] + [s[i]];
    }
    assert s[..|s|] == s;
  }

  // ---------- permutations ----------

  lemma TwoOccurrences<T>(s: seq<T>, i: nat, j: nat)
    requires i < j < |s| && s[i] == s[j]
    ensures multiset(s)[s[i]] >= 2
  {
    assert s == s[..j] + [s[j]] + s[j + 1..];
    assert s[i] in s[..j];
  }

  lemma OneOccurrence<T>(s: seq<T>, p: nat)
    requires p < |s| && forall i | 0 <= i < |s| && i != p :: s[i] != s[p]
    ensures multiset(s)[s[p]] == 1
  {
    assert s == s[..p] + [s[p]] + s[p + 1..];
    assert s[p] !in s[..p] && s[p] !in s[p + 1..];
  }

  /** No two elements are the same in the sense of `same`; neither are they in any permutation. */
  lemma DistinctPermutation<T(!new)>(a: seq<T>, b: seq<T>, same: (T, T) -> bool)
    requires forall x :: same(x, x)
    requires forall x, y :: same(x, y) ==> same(y, x)
    requires forall i, j | 0 <= i < j < |a| :: !same(a[i], a[j])
    requires multiset(a) == multiset(b)
    ensures forall i, j | 0 <= i < j < |b| :: !same(b[i], b[j])
  {
    forall i, j | 0 <= i < j < |b| ensures !same(b[i], b[j]) {
      assert b[i] in multiset(b) && b[j] in multiset(b);
      var p :| 0 <= p < |a| && a[p] == b[i];
      var q :| 0 <= q < |a| && a[q] == b[j];
      if p == q {
        TwoOccurrences(b, i, j);
        OneOccurrence(a, p);
      }
    }
  }

  function Map<T, U>(s: seq<T>, f: T -> U): seq<U> {
    seq(|s|, i requires 0 <= i < |s| => f(s[i]))
  }

  lemma MapConcat<T, U>(a: seq<T>, b: seq<T>, f: T -> U)
    ensures Map(a + b, f) == Map(a, f) + Map(b, f)
  {
  }

  /** Permuting a list permutes its image. */
  lemma {:induction false} MapPermutation<T, U>(a: seq<T>, b: seq<T>, f: T -> U)
    requires multiset(a) == multiset(b)
    ensures multiset(Map(a, f)) == multiset(Map(b, f))
    decreases |a|
  {
    hide Map;
    if a == [] {
      assert |multiset(b)| == 0;
      assert a == b;
    } else {
      var x := a[0];
      assert x in multiset(b);
      var j :| 0 <= j < |b| && b[j] == x;
      var left, right := b[..j], b[j + 1..];
      WithoutOne(a, b, x, left, right);
      MapPermutation(a[1..], left + right, f);
      MapConcat([x], a[1..], f);
      MapWithout(left, x, right, f);
    }
  }

  lemma WithoutOne<T>(a: seq<T>, b: seq<T>, x: T, left: seq<T>, right: seq<T>)
    requires a != [] && a[0] == x && b == left + [x] + right && multiset(a) == multiset(b)
    ensures a == [x] + a[1..] && b == left + ([x] + right)
    ensures multiset(a[1..]) == multiset(left + right)
  {
    assert a == [x] + a[1..];
    assert b == left + ([x] + right);
    assert multiset(a[1..]) == multiset(a) - multiset{x} == multiset(left + right);
  }

  lemma MapWithout<T, U>(left: seq<T>, x: T, right: seq<T>, f: T -> U)
    ensures multiset(Map(left + ([x] + right), f)) == multiset(Map([x], f)) + multiset(Map(left + right, f))
  {
    hide Map;
    MapConcat(left, right, f);
    MapConcat([x], right, f);
    MapConcat(left, [x] + right, f);
  }
}
