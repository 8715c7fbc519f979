/** The order in which a policy file lists its keys and tables does not matter. */
module PolicyOrder {
  import opened Wrappers
  import opened CanonicalJson
  import opened PolicyDesign
  import opened PolicyRevision

  /** TOML keys as the configuration uses them: no key occurs twice in a table, and none contains a dot. */
  predicate Plain(entries: seq<Entry>) {
    && (forall i, j :: 0 <= i < j < |entries| ==> entries[i].key != entries[j].key)
    && (forall i :: 0 <= i < |entries| ==> '.' !in entries[i].key)
    && (forall i :: 0 <= i < |entries| && entries[i].value.Record? ==> Plain(entries[i].value.entries))
  }

  /** The leaves that one entry contributes. */
  function Leaves(e: Entry, prefix: string): map<string, Value> {
    if e.value.Record? then Flatten(e.value.entries, prefix + e.key + ".") else map[prefix + e.key := e.value]
  }

  /** A path below an entry starts with the entry's path, and either ends there or goes on with a dot. */
  predicate Below(path: string, start: string) {
    |path| >= |start| && path[..|start|] == start && (|path| > |start| ==> path[|start|] == '.')
  }

  lemma {:induction false} FlattenBelow(entries: seq<Entry>, prefix: string, p: string)
    requires p in Flatten(entries, prefix)
    ensures |p| >= |prefix| && p[..|prefix|] == prefix
    decreases entries
  {
    var n := |entries| - 1;
    var path := prefix + entries[n].key;
    if p in Flatten(entries[..n], prefix) {
      FlattenBelow(entries[..n], prefix, p);
    } else if entries[n].value.Record? {
      FlattenBelow(entries[n].value.entries, path + ".", p);
      assert p[..|prefix|] == p[..|path + "."|][..|prefix|] == prefix;
    } else {
      assert p == path;
    }
  }

  lemma LeavesBelow(e: Entry, prefix: string, p: string)
    requires p in Leaves(e, prefix)
    ensures Below(p, prefix + e.key)
  {
    var path := prefix + e.key;
    if e.value.Record? {
      FlattenBelow(e.value.entries, path + ".", p);
      assert p[..|path|] == p[..|path + "."|][..|path|] == path && p[|path|] == p[..|path + "."|][|path|] == '.';
    } else {
      assert p[..|path|] == path;
    }
  }

  lemma SameStart(p: string, prefix: string, a: string, b: string)
    requires Below(p, prefix + a) && Below(p, prefix + b) && '.' !in a && '.' !in b
    ensures a == b
  {
    var q := p[|prefix|..];
    assert q[..|a|] == (prefix + a)[|prefix|..] == a && q[..|b|] == (prefix + b)[|prefix|..] == b;
    assert forall i :: 0 <= i < |a| ==> q[i] == a[i] && a[i] in a;
    assert forall i :: 0 <= i < |b| ==> q[i] == b[i] && b[i] in b;
    assert |a| < |q| ==> q[|a|] == p[|prefix + a|];
    assert |b| < |q| ==> q[|b|] == p[|prefix + b|];
  }

  /** Flattening a plain table is the disjoint union of what its entries contribute. */
  lemma {:induction false} FlattenUnion(entries: seq<Entry>, prefix: string, p: string)
    requires Plain(entries)
    ensures p in Flatten(entries, prefix) <==> exists i :: 0 <= i < |entries| && p in Leaves(entries[i], prefix)
    ensures forall i :: 0 <= i < |entries| && p in Leaves(entries[i], prefix) ==>
            Flatten(entries, prefix)[p] == Leaves(entries[i], prefix)[p]
    decreases |entries|
  {
    hide Leaves;
    if entries != [] {
      var n := |entries| - 1;
      var init := entries[..n];
      PlainInit(entries);
      FlattenUnion(init, prefix, p);
      FlattenLast(entries, prefix);
      assert forall i :: 0 <= i < n ==> init[i] == entries[i];
      if p in Leaves(entries[n], prefix) {
        forall i | 0 <= i < n ensures p !in Leaves(entries[i], prefix) {
          if p in Leaves(entries[i], prefix) {
            LeavesBelow(entries[i], prefix, p);
            LeavesBelow(entries[n], prefix, p);
            SameStart(p, prefix, entries[i].key, entries[n].key);
          }
        }
      }
    }
  }

  lemma FlattenLast(entries: seq<Entry>, prefix: string)
    requires entries != []
    ensures Flatten(entries, prefix) == Flatten(entries[..|entries| - 1], prefix)
            + Leaves(entries[|entries| - 1], prefix)
  {
  }

  lemma PlainInit(entries: seq<Entry>)
    requires Plain(entries) && entries != []
    ensures Plain(entries[..|entries| - 1])
  {
    var init := entries[..|entries| - 1];
    assert forall i :: 0 <= i < |init| ==> init[i] == entries[i];
  }

  /** Two flattened maps with the same paths and the same leaves. */
  ghost predicate SameLeaves(a: map<string, Value>, b: map<string, Value>) {
    a.Keys == b.Keys && forall p :: p in a ==> Same(a[p], b[p])
  }

  /** The entry of the other table with the same key. */
  lemma Partner(a: seq<Entry>, b: seq<Entry>, i: nat) returns (j: nat)
    requires Plain(a) && KeySet(a) == KeySet(b) && (forall k :: k in KeySet(a) ==> Same(Get(a, k), Get(b, k)))
             && i < |a|
    ensures j < |b| && b[j].key == a[i].key && Same(a[i].value, b[j].value)
  {
    hide Same;
    var k := a[i].key;
    assert k in KeySet(a);
    var x :| 0 <= x < |a| && a[x] == Entry(k, Get(a, k));
    assert x == i;
    j :| 0 <= j < |b| && b[j] == Entry(k, Get(b, k));
  }

  lemma {:induction false} LeavesSame(e: Entry, f: Entry, prefix: string)
    requires e.key == f.key && Same(e.value, f.value)
    requires (e.value.Record? ==> Plain(e.value.entries)) && (f.value.Record? ==> Plain(f.value.entries))
    ensures SameLeaves(Leaves(e, prefix), Leaves(f, prefix))
    decreases e, 1
  {
    if e.value.Record? { FlattenSame(e.value.entries, f.value.entries, prefix + e.key + "."); }
  }

  /** Reordering entries, at any depth, keeps every path and every leaf. */
  lemma {:induction false} FlattenSame(a: seq<Entry>, b: seq<Entry>, prefix: string)
    requires Plain(a) && Plain(b) && Same(Record(a), Record(b))
    ensures SameLeaves(Flatten(a, prefix), Flatten(b, prefix))
    decreases a, 2
  {
    hide Leaves, Flatten;
    forall p ensures p in Flatten(a, prefix) <==> p in Flatten(b, prefix)
      ensures p in Flatten(a, prefix) ==> Same(Flatten(a, prefix)[p], Flatten(b, prefix)[p])
    {
      FlattenUnion(a, prefix, p);
      FlattenUnion(b, prefix, p);
      if p in Flatten(a, prefix) {
        var i :| 0 <= i < |a| && p in Leaves(a[i], prefix);
        var j := Partner(a, b, i);
        LeavesSame(a[i], b[j], prefix);
      }
      if p in Flatten(b, prefix) {
        var j :| 0 <= j < |b| && p in Leaves(b[j], prefix);
        var i := KeyIndex(a, b[j].key);
        var j' := Partner(a, b, i);
        assert j' == j;
        LeavesSame(a[i], b[j], prefix);
      }
    }
  }

  lemma KeyIndex(entries: seq<Entry>, key: string) returns (i: nat)
    requires key in KeySet(entries)
    ensures i < |entries| && entries[i].key == key
  {
    i :| 0 <= i < |entries| && entries[i].key == key;
  }

  lemma NormalSame(sc: Schema, key: string, v: Value, w: Value)
    requires Same(v, w)
    ensures Normal(sc, key, v) == Normal(sc, key, w)
  {
  }

  /** The revision does not depend on the order in which the file lists its tables and keys. */
  lemma OrderIrrelevant(sc: Schema, a: seq<Entry>, b: seq<Entry>)
    requires Plain(a) && Plain(b) && Same(Record(a), Record(b))
    ensures RevisionText(sc, a) == RevisionText(sc, b)
  {
    hide Normal, OutObject, Flatten, Plain;
    FlattenSame(a, b, "");
    var x, y := Flatten(a, ""), Flatten(b, "");
    forall k | k in x ensures Normal(sc, k, x[k]) == Normal(sc, k, y[k]) { NormalSame(sc, k, x[k], y[k]); }
    assert Normalised(sc, x) == Normalised(sc, y);
  }
}
