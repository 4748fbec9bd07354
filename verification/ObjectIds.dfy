/**
 The identity of a Kubernetes object and its one-line form
 `<namespace>_<name>_<group>_<kind>`, as the inventory stores it.
 */
module ObjectIds {
  import opened Wrappers

  datatype ObjMetadata = ObjMetadata(namespace: string, name: string, group: string, kind: string)

  predicate SeparatorFree(s: string) {
    '_' !in s
  }

  predicate WellFormed(m: ObjMetadata) {
    && SeparatorFree(m.namespace)
    && SeparatorFree(m.name)
    && SeparatorFree(m.group)
    && SeparatorFree(m.kind)
  }

  function Print(m: ObjMetadata): string {
    m.namespace + "_" + m.name + "_" + m.group + "_" + m.kind
  }

  /** The fields of `s` between separators; an empty string is one empty field. */
  function Split(s: string): (fields: seq<string>)
    ensures |fields| >= 1
    ensures forall f :: f in fields ==> SeparatorFree(f)
  {
    if s == "" then
      [""]
    else
      var rest := Split(s[1..]);
      if s[0] == '_' then
        [""] + rest
      else
        assert rest[0] in rest && forall f :: f in rest[1..] ==> f in rest;
        [[s[0]] + rest[0]] + rest[1..]
  }

  function Join(fields: seq<string>): string
    requires |fields| >= 1
  {
    if |fields| == 1 then fields[0] else fields[0] + "_" + Join(fields[1..])
  }

  /** Reading an identity back fails unless there are exactly four fields. */
  function Parse(s: string): Result<ObjMetadata> {
    var f := Split(s);
    if |f| == 4 then
      Success(ObjMetadata(f[0], f[1], f[2], f[3]))
    else
      Failure("unable to parse stored object metadata")
  }

  /** The fields of a string with one more character in front. */
  function Prepend(c: char, fields: seq<string>): seq<string>
    requires |fields| >= 1
  {
    if c == '_' then [""] + fields else [[c] + fields[0]] + fields[1..]
  }

  lemma PrependConcat(c: char, a: seq<string>, b: seq<string>)
    requires |a| >= 1
    ensures Prepend(c, a + b) == Prepend(c, a) + b
  {
    assert (a + b)[1..] == a[1..] + b;
  }

  lemma SplitCons(c: char, s: string)
    ensures Split([c] + s) == Prepend(c, Split(s))
  {
    assert ([c] + s)[1..] == s;
  }

  lemma {:induction false} SplitConcat(a: string, b: string)
    ensures Split(a + "_" + b) == Split(a) + Split(b)
  {
    if a == "" {
      assert (a + "_" + b)[1..] == b;
    } else {
      hide Split;
      SplitConcat(a[1..], b);
      SplitCons(a[0], a[1..]);
      SplitCons(a[0], a[1..] + "_" + b);
      assert a == [a[0]] + a[1..];
      assert a + "_" + b == [a[0]] + (a[1..] + "_" + b);
      PrependConcat(a[0], Split(a[1..]), Split(b));
    }
  }

  lemma {:induction false} SplitSingle(s: string)
    ensures |Split(s)| == 1 <==> SeparatorFree(s)
    ensures SeparatorFree(s) ==> Split(s) == [s]
  {
    if s != "" {
      SplitSingle(s[1..]);
      assert s == [s[0]] + s[1..];
    }
  }

  lemma JoinMany(first: string, rest: seq<string>)
    requires |rest| >= 1
    ensures Join([first] + rest) == first + ("_" + Join(rest))
  {
    assert ([first] + rest)[1..] == rest;
    Associative(first, "_", Join(rest));
  }

  lemma Associative(a: string, b: string, c: string)
    ensures (a + b) + c == a + (b + c)
  {
  }

  lemma JoinPrepend(c: char, fields: seq<string>)
    requires |fields| >= 1
    ensures Join(Prepend(c, fields)) == [c] + Join(fields)
  {
    if c == '_' {
      JoinMany("", fields);
      hide Join;
    } else if |fields| == 1 {
      assert Prepend(c, fields) == [[c] + fields[0]];
    } else {
      var first, rest := fields[0], fields[1..];
      JoinMany([c] + first, rest);
      JoinMany(first, rest);
      Associative([c], first, "_" + Join(rest));
      assert fields == [first] + rest;
      hide Join;
    }
  }

  lemma {:induction false} JoinSplit(s: string)
    ensures Join(Split(s)) == s
  {
    if s != "" {
      JoinSplit(s[1..]);
      hide Split, Join;
      SplitCons(s[0], s[1..]);
      JoinPrepend(s[0], Split(s[1..]));
      assert s == [s[0]] + s[1..];
    }
  }

  /** The printed form has the four fields in the documented order: namespace, name, group, kind. */
  lemma PrintedFields(m: ObjMetadata)
    requires WellFormed(m)
    ensures Split(Print(m)) == [m.namespace, m.name, m.group, m.kind]
  {
    SplitConcat(m.namespace + "_" + m.name + "_" + m.group, m.kind);
    SplitConcat(m.namespace + "_" + m.name, m.group);
    SplitConcat(m.namespace, m.name);
    SplitSingle(m.namespace);
    SplitSingle(m.name);
    SplitSingle(m.group);
    SplitSingle(m.kind);
    hide Split;
  }

  /**
   The round trip, for every identity: what was printed reads back as itself
   exactly when no field contains the separator, and otherwise it does not read
   back at all. No printed identity is ever read back as a different one.
   */
  lemma RoundTrip(m: ObjMetadata)
    ensures WellFormed(m) ==> Parse(Print(m)) == Success(m)
    ensures !WellFormed(m) ==> Parse(Print(m)).Failure?
  {
    SplitConcat(m.namespace + "_" + m.name + "_" + m.group, m.kind);
    SplitConcat(m.namespace + "_" + m.name, m.group);
    SplitConcat(m.namespace, m.name);
    SplitSingle(m.namespace);
    SplitSingle(m.name);
    SplitSingle(m.group);
    SplitSingle(m.kind);
  }

  /** Printing what was parsed gives the string back: the parser accepts only printed identities. */
  lemma PrintParse(s: string)
    requires Parse(s).Success?
    ensures WellFormed(Parse(s).value)
    ensures Print(Parse(s).value) == s
  {
    JoinSplit(s);
    var f := Split(s);
    var m := Parse(s).value;
    assert f[2..][1..] == [m.kind];
    assert Join(f[2..]) == m.group + "_" + m.kind;
    assert f[1..][1..] == f[2..];
    assert Join(f[1..]) == m.name + "_" + (m.group + "_" + m.kind);
    assert Join(f) == m.namespace + "_" + (m.name + "_" + (m.group + "_" + m.kind));
    assert SeparatorFree(f[0]) && SeparatorFree(f[1]) && SeparatorFree(f[2]) && SeparatorFree(f[3]);
  }

  lemma PrintInjective(a: ObjMetadata, b: ObjMetadata)
    requires WellFormed(a) && WellFormed(b)
    requires Print(a) == Print(b)
    ensures a == b
  {
    RoundTrip(a);
    RoundTrip(b);
  }
}
