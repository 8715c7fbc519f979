/** `canonicalJson` of scripts/policy-design.ts: a printed form of JSON values with sorted keys. It does not depend on
    the order in which keys were inserted, and it identifies nothing else. */
module CanonicalJson {

  /** A JSON value. The entries of a record are in insertion order; numbers are safe integers. */
  datatype Value = Null | Bool(b: bool) | Int(n: int) | Text(s: string) | List(items: seq<Value>)
                               | Record(entries: seq<Entry>)
  datatype Entry = Entry(key: string, value: Value)

  function KeySet(entries: seq<Entry>): set<string> { set i | 0 <= i < |entries| :: entries[i].key }

  /** value[key] */
  function Get(entries: seq<Entry>, key: string): (v: Value)
    requires key in KeySet(entries)
    ensures exists i :: 0 <= i < |entries| && entries[i] == Entry(key, v)
  {
    if entries[0].key == key then entries[0].value
    else
      assert key in KeySet(entries[1..]) by {
        var i :| 0 <= i < |entries| && entries[i].key == key;
        assert entries[1..][i - 1] == entries[i];
      }
      var v := Get(entries[1..], key);
      assert exists i :: 0 <= i < |entries| && entries[i] == Entry(key, v) by {
        var i :| 0 <= i < |entries[1..]| && entries[1..][i] == Entry(key, v);
        assert entries[i + 1] == Entry(key, v);
      }
      v
  }

  // ---------------------------------------------------------------- sorting keys

  /** Lexicographic order on strings. */
  predicate Leq(a: string, b: string) {
    a == [] || (b != [] && (a[0] < b[0] || (a[0] == b[0] && Leq(a[1..], b[1..]))))
  }

  lemma {:induction false} LeqTotal(a: string, b: string)
    ensures Leq(a, b) || Leq(b, a)
    ensures Leq(a, b) && Leq(b, a) ==> a == b
  {
    if a != [] && b != [] && a[0] == b[0] {
      LeqTotal(a[1..], b[1..]);
      assert a == [a[0]] + a[1..] && b == [b[0]] + b[1..];
    }
  }

  lemma {:induction false} LeqTransitive(a: string, b: string, c: string)
    requires Leq(a, b) && Leq(b, c)
    ensures Leq(a, c)
  {
    if a != [] && a[0] == b[0] == c[0] { LeqTransitive(a[1..], b[1..], c[1..]); }
  }

  lemma {:induction false} LeastKeyExists(keys: set<string>)
    requires keys != {}
    ensures exists k :: k in keys && forall x :: x in keys ==> Leq(k, x)
    decreases keys
  {
    var x :| x in keys;
    var rest := keys - {x};
    assert keys == rest + {x};
    LeqTotal(x, x);
    if rest == {} {
      assert forall y :: y in keys ==> y == x;
    } else {
      LeastKeyExists(rest);
      var k :| k in rest && forall y :: y in rest ==> Leq(k, y);
      LeqTotal(k, x);
      var least := if Leq(k, x) then k else x;
      forall y | y in keys ensures Leq(least, y) {
        if y != x { assert y in rest; if least == x { LeqTransitive(x, k, y); } }
      }
    }
  }

  function LeastKey(keys: set<string>): (k: string)
    requires keys != {}
    ensures k in keys && forall x :: x in keys ==> Leq(k, x)
  {
    LeastKeyExists(keys);
    assert forall k, l ::
      k in keys && l in keys && (forall x :: x in keys ==> Leq(k, x)) && (forall x :: x in keys ==> Leq(l, x)) ==>
        k == l
    by {
      forall k, l | k in keys && l in keys && (forall x :: x in keys ==> Leq(k, x))
        && (forall x :: x in keys ==> Leq(l, x))
        ensures k == l
      {
        LeqTotal(k, l);
      }
    }
    var k :| k in keys && forall x :: x in keys ==> Leq(k, x);
    k
  }

  /** Object.keys(value).sort() */
  function SortedKeys(keys: set<string>): (s: seq<string>)
    ensures forall k :: k in s <==> k in keys
    decreases keys
  {
    if keys == {} then [] else
    var k := LeastKey(keys);
    var rest := SortedKeys(keys - {k});
    assert forall x :: x in [k] + rest <==> x == k || x in rest;
    [k] + rest
  }

  predicate Increasing(s: seq<string>) { forall i, j :: 0 <= i < j < |s| ==> Leq(s[i], s[j]) && s[i] != s[j] }

  /** The sorted keys are sorted, and each key occurs once. */
  lemma {:induction false} KeysAreSorted(keys: set<string>)
    ensures Increasing(SortedKeys(keys))
    decreases keys
  {
    hide Leq;
    if keys != {} {
      var k := LeastKey(keys);
      KeysAreSorted(keys - {k});
      var rest := SortedKeys(keys - {k});
      forall i | 0 <= i < |rest| ensures Leq(k, rest[i]) && k != rest[i] { assert rest[i] in rest; }
    }
  }

  // ---------------------------------------------------------------- printing

  function DigitChar(d: nat): (c: char)
    requires d < 10
    ensures '0' <= c <= '9' && c as int == '0' as int + d
  {
    ('0' as int + d) as char
  }

  function Decimal(n: nat): (s: string)
    ensures |s| > 0 && forall i :: 0 <= i < |s| ==> '0' <= s[i] <= '9'
  {
    if n < 10 then [DigitChar(n)] else Decimal(n / 10) + [DigitChar(n % 10)]
  }

  function IntText(n: int): string { if n < 0 then "-" + Decimal(-n) else Decimal(n) }

  function HexChar(d: nat): (c: char)
    requires d < 16
    ensures HexValue(c) == d
  {
    if d < 10 then ('0' as int + d) as char else ('a' as int + d - 10) as char
  }

  function HexValue(c: char): nat {
    if '0' <= c <= '9' then c as int - '0' as int else if 'a' <= c <= 'f' then c as int - 'a' as int + 10 else 0
  }

  /** One character inside a JSON string. */
  function Escaped(c: char): string {
    if c == '"' then ['\\', '"']
    else if c == '\\' then ['\\', '\\']
    else if c == '\U{08}' then ['\\', 'b']
    else if c == '\t' then ['\\', 't']
    else if c == '\n' then ['\\', 'n']
    else if c == '\U{0C}' then ['\\', 'f']
    else if c == '\r' then ['\\', 'r']
    else if c < ' ' then ['\\', 'u', '0', '0', HexChar(c as int / 16), HexChar(c as int % 16)]
    else [c]
  }

  function EscapedAll(s: string): string { if s == [] then [] else Escaped(s[0]) + EscapedAll(s[1..]) }

  /** JSON.stringify of a string. */
  function QuotedText(s: string): string { "\"" + EscapedAll(s) + "\"" }

  function Print(v: Value): string
    decreases v, 0
  {
    match v
    case Null => "null"
    case Bool(b) => if b then "true" else "false"
    case Int(n) => IntText(n)
    case Text(s) => QuotedText(s)
    case List(items) => "[" + PrintItems(items) + "]"
    case Record(entries) => "{" + PrintFields(entries, SortedKeys(KeySet(entries))) + "}"
  }

  function PrintItems(items: seq<Value>): string
    decreases items, 1
  {
    if items == [] then "" else Print(items[0]) + (if |items| > 1 then "," + PrintItems(items[1..]) else "")
  }

  function PrintFields(entries: seq<Entry>, keys: seq<string>): string
    requires forall k :: k in keys ==> k in KeySet(entries)
    decreases entries, 1, |keys|
  {
    if keys == [] then ""
    else
      QuotedText(keys[0]) + ":" + Print(Get(entries, keys[0]))
      + (if |keys| > 1 then "," + PrintFields(entries, keys[1..]) else "")
  }

  // ---------------------------------------------------------------- equality up to insertion order

  /** The same JSON value: records with the same keys and the same value under each of them. */
  predicate Same(v: Value, w: Value)
    decreases v
  {
    match (v, w)
    case (List(a), List(b)) => |a| == |b| && forall i :: 0 <= i < |a| ==> Same(a[i], b[i])
    case (Record(a), Record(b)) => KeySet(a) == KeySet(b) && forall k :: k in KeySet(a) ==> Same(Get(a, k), Get(b, k))
    case _ => v == w
  }

  // ---------------------------------------------------------------- insertion order does not matter

  lemma {:induction false} SameItems(a: seq<Value>, b: seq<Value>)
    requires |a| == |b| && forall i :: 0 <= i < |a| ==> Same(a[i], b[i])
    ensures PrintItems(a) == PrintItems(b)
    decreases a, 1
  {
    if a != [] {
      SamePrints(a[0], b[0]);
      assert forall i :: 0 <= i < |a[1..]| ==> a[1..][i] == a[i + 1] && b[1..][i] == b[i + 1];
      SameItems(a[1..], b[1..]);
    }
  }

  lemma {:induction false} SameFields(a: seq<Entry>, b: seq<Entry>, keys: seq<string>)
    requires (forall k :: k in keys ==> k in KeySet(a)) && KeySet(a) == KeySet(b)
             && forall k :: k in KeySet(a) ==> Same(Get(a, k), Get(b, k))
    ensures PrintFields(a, keys) == PrintFields(b, keys)
    decreases a, 1, |keys|
  {
    if keys != [] {
      SamePrints(Get(a, keys[0]), Get(b, keys[0]));
      SameFields(a, b, keys[1..]);
    }
  }

  /** The same JSON value prints the same, whatever the insertion orders. */
  lemma {:induction false} SamePrints(v: Value, w: Value)
    requires Same(v, w)
    ensures Print(v) == Print(w)
    decreases v, 0
  {
    match (v, w)
    case (List(a), List(b)) => SameItems(a, b);
    case (Record(a), Record(b)) => SameFields(a, b, SortedKeys(KeySet(a)));
    case _ =>
  }

  // ---------------------------------------------------------------- nothing else is identified

  /** What may follow a printed value: nothing, or a separator. */
  predicate Ends(r: string) { r == [] || r[0] in ",]}" }

  function Number(s: string): int
    requires forall i :: 0 <= i < |s| ==> '0' <= s[i] <= '9'
  {
    if s == [] then 0 else 10 * Number(s[..|s| - 1]) + (s[|s| - 1] as int - '0' as int)
  }

  lemma {:induction false} NumberDecimal(n: nat)
    ensures Number(Decimal(n)) == n
  {
    var s := Decimal(n);
    if n < 10 {
      assert s[..0] == [] && Number(s[..|s| - 1]) == 0;
    } else {
      NumberDecimal(n / 10);
      assert s[..|s| - 1] == Decimal(n / 10);
    }
  }

  predicate AllDigits(s: string) { forall i :: 0 <= i < |s| ==> '0' <= s[i] <= '9' }

  /** Digits followed by a separator cannot also be read as fewer digits followed by a separator. */
  lemma LongerDigits(s: string, t: string, r: string, q: string)
    requires AllDigits(s) && |t| < |s| && Ends(q)
    ensures s + r != t + q
  {
    assert (s + r)[|t|] == s[|t|];
    if q == [] {
      assert |t + q| < |s + r|;
    } else {
      assert (t + q)[|t|] == q[0];
    }
  }

  lemma DecimalUnique(m: nat, n: nat, r: string, q: string)
    requires Decimal(m) + r == Decimal(n) + q && Ends(r) && Ends(q)
    ensures m == n && r == q
  {
    var s, t := Decimal(m), Decimal(n);
    if |t| < |s| { LongerDigits(s, t, r, q); }
    if |s| < |t| { LongerDigits(t, s, q, r); }
    assert (s + r)[..|s|] == s && (t + q)[..|t|] == t && (s + r)[|s|..] == r && (t + q)[|t|..] == q;
    NumberDecimal(m);
    NumberDecimal(n);
  }

  /** The first character of an escaped text, and the rest. */
  function Unescaped(s: string): (char, string)
    requires s != []
  {
    if s[0] != '\\' || |s| < 2 then (s[0], s[1..])
    else if s[1] == 'b' then ('\U{08}', s[2..])
    else if s[1] == 't' then ('\t', s[2..])
    else if s[1] == 'n' then ('\n', s[2..])
    else if s[1] == 'f' then ('\U{0C}', s[2..])
    else if s[1] == 'r' then ('\r', s[2..])
    else if s[1] == 'u' && |s| >= 6 then ((HexValue(s[4]) * 16 + HexValue(s[5])) as char, s[6..])
    else (s[1], s[2..])
  }

  lemma Unescapes(c: char, r: string)
    ensures Escaped(c) + r != [] && Unescaped(Escaped(c) + r) == (c, r)
  {
    var e := Escaped(c);
    var x := e + r;
    assert x[|e|..] == r && forall i :: 0 <= i < |e| ==> x[i] == e[i];
  }

  /** A quoted text ends exactly at its closing quote. */
  lemma {:induction false} EscapedUnique(s: string, t: string, r: string, q: string)
    requires EscapedAll(s) + (['"'] + r) == EscapedAll(t) + (['"'] + q)
    ensures s == t && r == q
  {
    hide Unescaped, Escaped;
    if s != [] { EscapedHead(s, ['"'] + r); } else { NoEscapes(['"'] + r); }
    if t != [] { EscapedHead(t, ['"'] + q); } else { NoEscapes(['"'] + q); }
    if s == [] && t == [] {
      assert (['"'] + r)[1..] == r && (['"'] + q)[1..] == q;
    } else if s != [] && t != [] {
      EscapedUnique(s[1..], t[1..], r, q);
      assert s == [s[0]] + s[1..] && t == [t[0]] + t[1..];
    }
  }

  lemma NoEscapes(r: string)
    ensures EscapedAll([]) + r == r
  {
  }

  lemma EscapedHead(s: string, r: string)
    requires s != []
    ensures var x := EscapedAll(s) + r; x != [] && x[0] != '"' && Unescaped(x) == (s[0], EscapedAll(s[1..]) + r)
  {
    assert EscapedAll(s) + r == Escaped(s[0]) + (EscapedAll(s[1..]) + r);
    Unescapes(s[0], EscapedAll(s[1..]) + r);
  }

  lemma ConsUnique(c: char, d: char, s: string, t: string)
    requires [c] + s == [d] + t
    ensures c == d && s == t
  {
    assert ([c] + s)[0] == c && ([d] + t)[0] == d;
    assert ([c] + s)[1..] == s && ([d] + t)[1..] == t;
  }

  lemma QuotedSplit(s: string, r: string)
    ensures QuotedText(s) + r == ['"'] + (EscapedAll(s) + (['"'] + r))
  {
    hide EscapedAll;
  }

  lemma QuotedUnique(s: string, t: string, r: string, q: string)
    requires QuotedText(s) + r == QuotedText(t) + q
    ensures s == t && r == q
  {
    hide EscapedAll, QuotedText;
    QuotedSplit(s, r);
    QuotedSplit(t, q);
    ConsUnique('"', '"', EscapedAll(s) + (['"'] + r), EscapedAll(t) + (['"'] + q));
    EscapedUnique(s, t, r, q);
  }

  lemma Negative(m: nat, r: string)
    ensures ("-" + Decimal(m)) + r == ['-'] + (Decimal(m) + r)
  {
    hide Decimal;
  }

  lemma DecimalHead(m: nat, r: string)
    ensures Decimal(m) + r != [] && '0' <= (Decimal(m) + r)[0] <= '9'
  {
    hide Decimal;
  }

  lemma IntUnique(m: int, n: int, r: string, q: string)
    requires IntText(m) + r == IntText(n) + q && Ends(r) && Ends(q)
    ensures m == n && r == q
  {
    hide Decimal, Ends;
    if m < 0 { Negative(-m, r); } else { DecimalHead(m, r); }
    if n < 0 { Negative(-n, q); } else { DecimalHead(n, q); }
    assert m < 0 <==> n < 0 by {
      if m < 0 { assert (['-'] + (Decimal(-m) + r))[0] == '-'; }
      if n < 0 { assert (['-'] + (Decimal(-n) + q))[0] == '-'; }
    }
    if m < 0 {
      ConsUnique('-', '-', Decimal(-m) + r, Decimal(-n) + q);
      DecimalUnique(-m, -n, r, q);
    } else {
      DecimalUnique(m, n, r, q);
    }
  }

  /** Print(v) + r, built from the right. */
  function PrintTo(v: Value, r: string): string
    decreases v, 0
  {
    match v
    case List(items) => ['['] + ItemsTo(items, [']'] + r)
    case Record(entries) => ['{'] + FieldsTo(entries, SortedKeys(KeySet(entries)), ['}'] + r)
    case _ => Print(v) + r
  }

  function ItemsTo(items: seq<Value>, r: string): string
    decreases items, 1
  {
    if items == [] then r else PrintTo(items[0], if |items| > 1 then [','] + ItemsTo(items[1..], r) else r)
  }

  function FieldsTo(entries: seq<Entry>, keys: seq<string>, r: string): string
    requires forall k :: k in keys ==> k in KeySet(entries)
    decreases entries, 1, |keys|
  {
    if keys == [] then r
    else QuotedText(keys[0]) + ([':'] + PrintTo(Get(entries, keys[0]),
      if |keys| > 1 then [','] + FieldsTo(entries, keys[1..], r) else r))
  }

  lemma Around(a: string, b: string, c: string, r: string)
    ensures (a + b + c) + r == a + (b + (c + r))
  {
  }

  lemma {:induction false} PrintToIs(v: Value, r: string)
    ensures PrintTo(v, r) == Print(v) + r
    decreases v, 0
  {
    hide QuotedText, IntText, SortedKeys;
    match v
    case List(items) =>
      ItemsToIs(items, [']'] + r);
      Around("[", PrintItems(items), "]", r);
    case Record(entries) =>
      var keys := SortedKeys(KeySet(entries));
      FieldsToIs(entries, keys, ['}'] + r);
      Around("{", PrintFields(entries, keys), "}", r);
    case _ =>
  }

  lemma Append(a: string, b: string, r: string)
    ensures (a + b) + r == a + (b + r)
  {
  }

  lemma {:induction false} ItemsToIs(items: seq<Value>, r: string)
    ensures ItemsTo(items, r) == PrintItems(items) + r
    decreases items, 1
  {
    hide Print, PrintTo;
    if items != [] {
      if |items| > 1 {
        ItemsToIs(items[1..], r);
        Append(",", PrintItems(items[1..]), r);
        PrintToIs(items[0], [','] + ItemsTo(items[1..], r));
        Append(Print(items[0]), "," + PrintItems(items[1..]), r);
      } else {
        PrintToIs(items[0], r);
        Append(Print(items[0]), "", r);
        assert "" + r == r;
      }
    }
  }

  lemma {:induction false} FieldsToIs(entries: seq<Entry>, keys: seq<string>, r: string)
    requires forall k :: k in keys ==> k in KeySet(entries)
    ensures FieldsTo(entries, keys, r) == PrintFields(entries, keys) + r
    decreases entries, 1, |keys|
  {
    hide Print, PrintTo, QuotedText;
    if keys != [] {
      var v := Get(entries, keys[0]);
      var tail := if |keys| > 1 then "," + PrintFields(entries, keys[1..]) else "";
      if |keys| > 1 {
        FieldsToIs(entries, keys[1..], r);
        Append(",", PrintFields(entries, keys[1..]), r);
        PrintToIs(v, [','] + FieldsTo(entries, keys[1..], r));
      } else {
        PrintToIs(v, r);
        assert "" + r == r;
      }
      Append(QuotedText(keys[0]) + ":" + Print(v), tail, r);
      Append(QuotedText(keys[0]) + ":", Print(v), tail + r);
      Append(QuotedText(keys[0]), ":", Print(v) + (tail + r));
    } else {
      assert "" + r == r;
    }
  }

  /** The kinds of values, told apart by the first character of their printed form. */
  function Kind(c: char): nat {
    if c == 'n' then 0 else if c == 't' then 1 else if c == 'f' then 2 else if c == '"' then 3 else if c == '[' then 4
      else if c == '{' then 5
    else if c == '-' || '0' <= c <= '9' then 6 else 7
  }

  function KindOf(v: Value): nat {
    match v
    case Null => 0
    case Bool(b) => if b then 1 else 2
    case Text(_) => 3
    case List(_) => 4
    case Record(_) => 5
    case Int(_) => 6
  }

  lemma FirstChar(v: Value, r: string)
    ensures PrintTo(v, r) != [] && Kind(PrintTo(v, r)[0]) == KindOf(v)
  {
    hide SortedKeys;
    match v
    case Int(n) => if n < 0 { Negative(-n, r); } else { DecimalHead(n, r); }
    case Text(s) => QuotedSplit(s, r);
    case _ =>
  }

  /** Reading is unambiguous: if two printed values followed by separators read the same, they are the same values and
      are followed by the same text. */
  lemma {:induction false} PrintUnique(v: Value, w: Value, r: string, q: string)
    requires PrintTo(v, r) == PrintTo(w, q) && Ends(r) && Ends(q)
    ensures Same(v, w) && r == q
    decreases v, 0
  {
    hide SortedKeys, QuotedText, IntText, Ends, FieldsTo, ItemsTo, Kind;
    FirstChar(v, r);
    FirstChar(w, q);
    match v
    case Int(m) => IntUnique(m, w.n, r, q);
    case Text(s) => QuotedUnique(s, w.s, r, q);
    case List(items) =>
      ConsUnique('[', '[', ItemsTo(items, [']'] + r), ItemsTo(w.items, [']'] + q));
      ItemsUnique(items, w.items, r, q);
    case Record(entries) =>
      var a, b := SortedKeys(KeySet(entries)), SortedKeys(KeySet(w.entries));
      ConsUnique('{', '{', FieldsTo(entries, a, ['}'] + r), FieldsTo(w.entries, b, ['}'] + q));
      FieldsUnique(entries, w.entries, a, b, r, q);
      SameKeys(KeySet(entries), KeySet(w.entries));
    case Null => ConstantEnd("null", r, q);
    case Bool(b) => ConstantEnd(if b then "true" else "false", r, q);
  }

  lemma SameKeys(a: set<string>, b: set<string>)
    requires SortedKeys(a) == SortedKeys(b)
    ensures a == b
  {
    hide SortedKeys;
    forall k ensures k in a <==> k in b {
      assert k in SortedKeys(a) <==> k in a;
      assert k in SortedKeys(b) <==> k in b;
    }
  }

  lemma ConstantEnd(c: string, r: string, q: string)
    requires c + r == c + q
    ensures r == q
  {
    assert (c + r)[|c|..] == r && (c + q)[|c|..] == q;
  }

  lemma {:induction false} ItemsUnique(a: seq<Value>, b: seq<Value>, r: string, q: string)
    requires ItemsTo(a, [']'] + r) == ItemsTo(b, [']'] + q)
    ensures |a| == |b| && (forall i :: 0 <= i < |a| ==> Same(a[i], b[i])) && r == q
    decreases a, 1
  {
    hide PrintTo, Same;
    var s := if |a| > 1 then [','] + ItemsTo(a[1..], [']'] + r) else [']'] + r;
    var t := if |b| > 1 then [','] + ItemsTo(b[1..], [']'] + q) else [']'] + q;
    if a != [] { FirstChar(a[0], s); }
    if b != [] { FirstChar(b[0], t); }
    assert ([']'] + r)[0] == ']' && ([']'] + q)[0] == ']';
    if a == [] {
      ConsUnique(']', ']', r, q);
    } else {
      PrintUnique(a[0], b[0], s, t);
      if |a| > 1 && |b| > 1 {
        ConsUnique(',', ',', ItemsTo(a[1..], [']'] + r), ItemsTo(b[1..], [']'] + q));
        ItemsUnique(a[1..], b[1..], r, q);
        forall i | 0 <= i < |a| ensures Same(a[i], b[i]) { if i > 0 { assert a[i] == a[1..][i - 1]
          && b[i] == b[1..][i - 1]; } }
      } else {
        assert s[0] == (if |a| > 1 then ',' else ']') && t[0] == if |b| > 1 then ',' else ']';
        ConsUnique(']', ']', r, q);
      }
    }
  }

  lemma {:induction false} FieldsUnique(a: seq<Entry>, b: seq<Entry>, keys: seq<string>, keys': seq<string>, r: string,
                                        q: string)
    requires (forall k :: k in keys ==> k in KeySet(a)) && (forall k :: k in keys' ==> k in KeySet(b))
    requires FieldsTo(a, keys, ['}'] + r) == FieldsTo(b, keys', ['}'] + q)
    ensures keys == keys' && (forall k :: k in keys ==> Same(Get(a, k), Get(b, k))) && r == q
    decreases a, 1, |keys|
  {
    hide PrintTo, Same, QuotedText, Get, KeySet;
    assert (['}'] + r)[0] == '}' && (['}'] + q)[0] == '}';
    if keys != [] { QuoteFirst(keys[0], FieldTail(a, keys, ['}'] + r)); }
    if keys' != [] { QuoteFirst(keys'[0], FieldTail(b, keys', ['}'] + q)); }
    if keys == [] {
      ConsUnique('}', '}', r, q);
    } else {
      var s := if |keys| > 1 then [','] + FieldsTo(a, keys[1..], ['}'] + r) else ['}'] + r;
      var t := if |keys'| > 1 then [','] + FieldsTo(b, keys'[1..], ['}'] + q) else ['}'] + q;
      var v, w := Get(a, keys[0]), Get(b, keys'[0]);
      QuotedUnique(keys[0], keys'[0], [':'] + PrintTo(v, s), [':'] + PrintTo(w, t));
      ConsUnique(':', ':', PrintTo(v, s), PrintTo(w, t));
      PrintUnique(v, w, s, t);
      if |keys| > 1 && |keys'| > 1 {
        ConsUnique(',', ',', FieldsTo(a, keys[1..], ['}'] + r), FieldsTo(b, keys'[1..], ['}'] + q));
        FieldsUnique(a, b, keys[1..], keys'[1..], r, q);
        assert keys == [keys[0]] + keys[1..] && keys' == [keys'[0]] + keys'[1..];
      } else {
        assert s[0] == (if |keys| > 1 then ',' else '}') && t[0] == if |keys'| > 1 then ',' else '}';
        ConsUnique('}', '}', r, q);
        assert keys == [keys[0]] && keys' == [keys'[0]];
      }
    }
  }

  /** What follows the first key in a printed record. */
  function FieldTail(entries: seq<Entry>, keys: seq<string>, r: string): string
    requires keys != [] && forall k :: k in keys ==> k in KeySet(entries)
  {
    [':'] + PrintTo(Get(entries, keys[0]), if |keys| > 1 then [','] + FieldsTo(entries, keys[1..], r) else r)
  }

  lemma QuoteFirst(s: string, r: string)
    ensures QuotedText(s) + r != [] && (QuotedText(s) + r)[0] == '"'
  {
    QuotedSplit(s, r);
  }

  /** `canonicalJson` identifies exactly the values that differ in insertion order only. */
  lemma PrintExactly(v: Value, w: Value)
    ensures Print(v) == Print(w) <==> Same(v, w)
  {
    if Same(v, w) { SamePrints(v, w); }
    if Print(v) == Print(w) {
      PrintToIs(v, []);
      PrintToIs(w, []);
      PrintUnique(v, w, [], []);
    }
  }
}
