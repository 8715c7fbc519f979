/** Which leaf flattening finds under which dotted path, and what the text behind a revision says. */
module PolicyText {
  import opened Wrappers
  import opened CanonicalJson
  import opened PolicyDesign
  import opened PolicyRevision
  import JsonReader

  // ---------------------------------------------------------------- flattening

  /** The rest of a path below a table of this name. */
  ghost predicate Inside(path: string, table: string) {
    |path| > |table| && path[..|table|] == table && path[|table|] == '.'
  }

  /** Something stands at the path: a leaf of that name, or something inside a table of that name. */
  ghost predicate Holds(e: Entry, path: string)
    decreases e
  {
    match e.value
    case Record(entries) =>
      Inside(path, e.key) && exists i :: 0 <= i < |entries| && Holds(entries[i], path[|e.key| + 1..])
    case _ => path == e.key
  }

  /** Entry e puts this value at the path. */
  ghost predicate Puts(e: Entry, path: string, v: Value)
    decreases e, 0
  {
    match e.value
    case Record(entries) => Inside(path, e.key) && Leads(entries, path[|e.key| + 1..], v)
    case _ => path == e.key && v == e.value
  }

  /** Following the path through the tables leads to the value; where several entries put something there, the last one
      counts. */
  ghost predicate Leads(entries: seq<Entry>, path: string, v: Value)
    decreases entries, 1
  {
    exists i :: 0 <= i < |entries| && Puts(entries[i], path, v)
                && forall j :: i < j < |entries| ==> !Holds(entries[j], path)
  }

  lemma {:induction false} FlattenPrefix(entries: seq<Entry>, prefix: string, x: string)
    requires x in Flatten(entries, prefix)
    ensures |x| >= |prefix| && x[..|prefix|] == prefix
    decreases entries
  {
    if entries != [] {
      var last := entries[|entries| - 1];
      var path := prefix + last.key;
      if last.value.Record? && x in Flatten(last.value.entries, path + ".") {
        FlattenPrefix(last.value.entries, path + ".", x);
        assert (path + ".")[..|prefix|] == prefix;
        assert x[..|prefix|] == x[..|path| + 1][..|prefix|];
      } else if x == path {
        assert path[..|prefix|] == prefix;
      } else {
        FlattenPrefix(entries[..|entries| - 1], prefix, x);
      }
    }
  }

  lemma BelowTable(prefix: string, table: string, path: string)
    requires Inside(path, table)
    ensures (prefix + table + ".") + path[|table| + 1..] == prefix + path
  {
    assert path == table + "." + path[|table| + 1..];
  }

  lemma NotBelowTable(prefix: string, table: string, path: string)
    requires var x, deep := prefix + path, prefix + table + "."; |x| >= |deep| && x[..|deep|] == deep
    ensures Inside(path, table)
  {
    var x, deep := prefix + path, prefix + table + ".";
    forall i | 0 <= i < |table| ensures path[i] == table[i] {
      assert x[|prefix| + i] == path[i] && x[..|deep|][|prefix| + i] == deep[|prefix| + i];
    }
    assert x[|prefix| + |table|] == path[|table|] && x[..|deep|][|prefix| + |table|] == deep[|prefix| + |table|];
  }

  /** What the last entry adds to the result. */
  lemma {:induction false} FlattenLast(e: Entry, prefix: string, path: string, v: Value)
    ensures var x := prefix + path;
            var added := if e.value.Record? then Flatten(e.value.entries, prefix + e.key + ".")
                         else map[prefix + e.key := e.value];
            && (x in added <==> Holds(e, path))
            && (x in added && added[x] == v <==> Puts(e, path, v))
    decreases e, 1
  {
    var x := prefix + path;
    match e.value
    case Record(entries) =>
      var deep := prefix + e.key + ".";
      if Inside(path, e.key) {
        BelowTable(prefix, e.key, path);
        FlattenExactly(entries, deep, path[|e.key| + 1..], v);
      } else if x in Flatten(entries, deep) {
        FlattenPrefix(entries, deep, x);
        NotBelowTable(prefix, e.key, path);
      }
    case _ => SamePath(prefix, path, e.key);
  }

  lemma SamePath(prefix: string, path: string, key: string)
    ensures prefix + path == prefix + key <==> path == key
  {
    if prefix + path == prefix + key {
      assert (prefix + path)[|prefix|..] == path && (prefix + key)[|prefix|..] == key;
    }
  }

  /** Flattening finds exactly the leaves, each under its dotted path. */
  lemma {:induction false} FlattenExactly(entries: seq<Entry>, prefix: string, path: string, v: Value)
    ensures prefix + path in Flatten(entries, prefix) <==> exists i :: 0 <= i < |entries| && Holds(entries[i], path)
    ensures prefix + path in Flatten(entries, prefix) && Flatten(entries, prefix)[prefix + path] == v
            <==> Leads(entries, path, v)
    decreases entries
  {
    hide Holds, Puts;
    if entries != [] {
      var n := |entries| - 1;
      var init := entries[..n];
      FlattenExactly(init, prefix, path, v);
      FlattenLast(entries[n], prefix, path, v);
      assert forall i :: 0 <= i < n ==> init[i] == entries[i];
      LeadsLast(entries, path, v);
    }
  }

  lemma LeadsLast(entries: seq<Entry>, path: string, v: Value)
    requires entries != []
    ensures var n := |entries| - 1;
            Leads(entries, path, v) <==>
              Puts(entries[n], path, v) || (!Holds(entries[n], path) && Leads(entries[..n], path, v))
  {
    hide Holds, Puts;
    var n := |entries| - 1;
    var init := entries[..n];
    if Leads(entries, path, v) {
      var i :| 0 <= i < |entries| && Puts(entries[i], path, v)
        && forall j :: i < j < |entries| ==> !Holds(entries[j], path);
      if i < n { assert init[i] == entries[i]; }
    }
    if Puts(entries[n], path, v) { assert Leads(entries, path, v); }
    if !Holds(entries[n], path) && Leads(init, path, v) {
      var i :| 0 <= i < n && Puts(init[i], path, v) && forall j :: i < j < n ==> !Holds(init[j], path);
      forall j | i < j < |entries| ensures !Holds(entries[j], path) {
        if j < n { assert init[j] == entries[j]; }
      }
      assert Puts(entries[i], path, v);
    }
  }

  // ---------------------------------------------------------------- the text of a revision

  /** The text behind a revision is the JSON of one record: exactly the expected keys, in increasing order, and under
      each of them the normalised number. */
  lemma RevisionReads(sc: Schema, entries: seq<Entry>)
    ensures var text, out := RevisionText(sc, entries), Normalised(sc, Flatten(entries, ""));
            && JsonReader.ReadValue(text).Some? && JsonReader.ReadValue(text).value.1 == ""
            && var w := JsonReader.ReadValue(text).value.0;
            && w.Record? && JsonReader.Ordered(w) && KeySet(w.entries) == sc.Expected()
            && forall k :: k in KeySet(w.entries) ==> Get(w.entries, k) == Int(out[k])
  {
    hide Flatten, Normal, OutObject, JsonReader.ReadValue, JsonReader.Ordered, KeySet, Get;
    var out := Normalised(sc, Flatten(entries, ""));
    var printed := OutObject(sc, out);
    JsonReader.PrintedReads(printed);
    ObjectFields(sc, out);
    ObjectIsRecord(sc, out);
    var w := JsonReader.ReadValue(Print(printed)).value.0;
    forall k | k in KeySet(w.entries) ensures Get(w.entries, k) == Int(out[k]) {
      assert Same(Get(w.entries, k), Get(printed.entries, k));
    }
  }
}
