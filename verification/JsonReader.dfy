/** A strict reader for compact JSON (RFC 8259), written down apart from the printer, and what it reads from a printed
    value. It keeps the order and the number of the keys it reads, and takes exactly one spelling of every character and
    every number. */
module JsonReader {
  import opened Wrappers
  import opened CanonicalJson

  // ---------------------------------------------------------------- the reader

  function DigitOf(c: char): Option<nat> {
    match c
    case '0' => Some(0) case '1' => Some(1) case '2' => Some(2) case '3' => Some(3) case '4' => Some(4)
    case '5' => Some(5) case '6' => Some(6) case '7' => Some(7) case '8' => Some(8) case '9' => Some(9)
    case _ => None
  }

  /** A lower-case hexadecimal digit. */
  function HexOf(c: char): Option<nat> {
    match c
    case 'a' => Some(10) case 'b' => Some(11) case 'c' => Some(12) case 'd' => Some(13) case 'e' => Some(14)
    case 'f' => Some(15) case _ => DigitOf(c)
  }

  /** The digits at the head of a text, appended to the number `acc`; and the rest. */
  function ReadDigits(s: string, acc: nat): (r: (nat, string))
    ensures |r.1| <= |s|
    decreases |s|
  {
    if s != "" && DigitOf(s[0]).Some? then ReadDigits(s[1..], 10 * acc + DigitOf(s[0]).value) else (acc, s)
  }

  /** A natural number without leading zeros. */
  function ReadNatural(s: string): (r: Option<(nat, string)>)
    ensures r.Some? ==> |r.value.1| < |s|
  {
    if s == "" || DigitOf(s[0]).None? then None
    else if s[0] == '0' then
      if |s| > 1 && DigitOf(s[1]).Some? then None else Some((0, s[1..]))
    else
      var (n, rest) := ReadDigits(s[1..], DigitOf(s[0]).value);
      Some((n, rest))
  }

  /** The escapes of one letter. */
  function ShortEscape(c: char): Option<char> {
    match c
    case '"' => Some('"') case '\\' => Some('\\') case 'b' => Some('\U{08}') case 'f' => Some('\U{0C}')
    case 'n' => Some('\n') case 'r' => Some('\r') case 't' => Some('\t') case _ => None
  }

  /** The four digits of a control character that has no escape of one letter. */
  function LongEscape(s: string): Option<char> {
    if |s| < 4 || s[0] != '0' || s[1] != '0' || (s[2] != '0' && s[2] != '1') || HexOf(s[3]).None? then None else
    var code := (if s[2] == '1' then 16 else 0) + HexOf(s[3]).value;
    if code in {8, 9, 10, 12, 13} then None else Some(code as char)
  }

  /** One character of a string, and the rest: raw, or escaped if it has to be. */
  function ReadChar(s: string): (r: Option<(char, string)>)
    ensures r.Some? ==> |r.value.1| < |s|
  {
    if s == "" || s[0] == '"' || s[0] < ' ' then None
    else if s[0] != '\\' then Some((s[0], s[1..]))
    else if |s| < 2 then None
    else if s[1] == 'u' then
      if LongEscape(s[2..]).Some? then Some((LongEscape(s[2..]).value, s[6..])) else None
    else if ShortEscape(s[1]).Some? then Some((ShortEscape(s[1]).value, s[2..]))
    else None
  }

  /** The rest of a string up to its closing quote. */
  function ReadText(s: string): (r: Option<(string, string)>)
    ensures r.Some? ==> |r.value.1| < |s|
    decreases |s|
  {
    if s != "" && s[0] == '"' then Some(("", s[1..]))
    else
      var (c, rest) :- ReadChar(s);
      var (text, after) :- ReadText(rest);
      Some(([c] + text, after))
  }

  function ReadWord(s: string, word: string, v: Value): (r: Option<(Value, string)>)
    requires word != ""
    ensures r.Some? ==> |r.value.1| < |s|
  {
    if |s| >= |word| && s[..|word|] == word then Some((v, s[|word|..])) else None
  }

  /** One value at the head of a text, and the rest. */
  function ReadValue(s: string): (r: Option<(Value, string)>)
    ensures r.Some? ==> |r.value.1| < |s|
    decreases |s|, 0
  {
    if s == "" then None
    else if s[0] == 'n' then ReadWord(s, "null", Null)
    else if s[0] == 't' then ReadWord(s, "true", Bool(true))
    else if s[0] == 'f' then ReadWord(s, "false", Bool(false))
    else if s[0] == '"' then
      var (text, rest) :- ReadText(s[1..]);
      Some((Text(text), rest))
    else if s[0] == '[' then
      if |s| > 1 && s[1] == ']' then Some((List([]), s[2..]))
      else
        var (items, rest) :- ReadItems(s[1..]);
        Some((List(items), rest))
    else if s[0] == '{' then
      if |s| > 1 && s[1] == '}' then Some((Record([]), s[2..]))
      else
        var (entries, rest) :- ReadFields(s[1..]);
        Some((Record(entries), rest))
    else if s[0] == '-' then
      var (n, rest) :- ReadNatural(s[1..]);
      if n == 0 then None else Some((Int(-(n as int)), rest))
    else
      var (n, rest) :- ReadNatural(s);
      Some((Int(n), rest))
  }

  /** The values of a list, separated by commas, up to its closing bracket. */
  function ReadItems(s: string): (r: Option<(seq<Value>, string)>)
    ensures r.Some? ==> |r.value.1| < |s|
    decreases |s|, 1
  {
    var (v, rest) :- ReadValue(s);
    if rest != "" && rest[0] == ']' then Some(([v], rest[1..]))
    else if rest != "" && rest[0] == ',' then
      var (items, after) :- ReadItems(rest[1..]);
      Some(([v] + items, after))
    else None
  }

  /** The entries of a record, in the order of the text, up to its closing brace. */
  function ReadFields(s: string): (r: Option<(seq<Entry>, string)>)
    ensures r.Some? ==> |r.value.1| < |s|
    decreases |s|, 1
  {
    if s == "" || s[0] != '"' then None else
    var (key, colon) :- ReadText(s[1..]);
    if colon == "" || colon[0] != ':' then None else
    var (v, rest) :- ReadValue(colon[1..]);
    if rest != "" && rest[0] == '}' then Some(([Entry(key, v)], rest[1..]))
    else if rest != "" && rest[0] == ',' then
      var (entries, after) :- ReadFields(rest[1..]);
      Some(([Entry(key, v)] + entries, after))
    else None
  }

  // ---------------------------------------------------------------- what a printed value reads as

  /** The value with the entries of every record in the order of their keys, each key once. */
  function InOrder(v: Value): Value
    decreases v, 0
  {
    match v
    case List(items) => List(ItemsInOrder(items))
    case Record(entries) => Record(FieldsInOrder(entries, SortedKeys(KeySet(entries))))
    case _ => v
  }

  function ItemsInOrder(items: seq<Value>): (r: seq<Value>)
    ensures |r| == |items|
    decreases items, 1
  {
    if items == [] then [] else [InOrder(items[0])] + ItemsInOrder(items[1..])
  }

  function FieldsInOrder(entries: seq<Entry>, keys: seq<string>): (r: seq<Entry>)
    requires forall k :: k in keys ==> k in KeySet(entries)
    ensures |r| == |keys|
    decreases entries, 1, |keys|
  {
    if keys == [] then []
    else [Entry(keys[0], InOrder(Get(entries, keys[0])))] + FieldsInOrder(entries, keys[1..])
  }

  /** Nothing more of a number follows. */
  predicate NoDigit(r: string) { r == "" || DigitOf(r[0]).None? }

  lemma DigitRead(d: nat)
    requires d < 10
    ensures DigitOf(DigitChar(d)) == Some(d)
  {
  }

  lemma {:induction false} DigitsAppend(s: string, t: string, acc: nat)
    requires forall i :: 0 <= i < |s| ==> DigitOf(s[i]).Some?
    ensures ReadDigits(s + t, acc) == ReadDigits(t, ReadDigits(s, acc).0)
  {
    if s == "" {
      assert s + t == t;
    } else {
      assert (s + t)[0] == s[0] && (s + t)[1..] == s[1..] + t;
      DigitsAppend(s[1..], t, 10 * acc + DigitOf(s[0]).value);
    }
  }

  lemma {:induction false} DecimalDigits(n: nat)
    ensures Decimal(n) != "" && forall i :: 0 <= i < |Decimal(n)| ==> DigitOf(Decimal(n)[i]).Some?
    ensures n > 0 ==> Decimal(n)[0] != '0'
    ensures ReadDigits(Decimal(n), 0).0 == n
    decreases n
  {
    var last := [DigitChar(n % 10)];
    DigitRead(n % 10);
    assert last[1..] == "";
    if n >= 10 {
      DecimalDigits(n / 10);
      DigitsAppend(Decimal(n / 10), last, 0);
      assert ReadDigits(last, n / 10) == ReadDigits("", 10 * (n / 10) + n % 10);
    } else {
      assert ReadDigits(last, 0) == ReadDigits("", n);
    }
  }

  lemma NaturalRead(n: nat, r: string)
    requires NoDigit(r)
    ensures ReadNatural(Decimal(n) + r) == Some((n, r))
    ensures (Decimal(n) + r)[0] != '-' && DigitOf((Decimal(n) + r)[0]).Some?
  {
    var s := Decimal(n);
    DecimalDigits(n);
    DigitsAppend(s, r, 0);
    assert (s + r)[0] == s[0];
    assert ReadDigits(s + r, 0) == (n, r);
    if n == 0 {
      assert s == ['0'];
      assert (s + r)[1..] == r;
    }
  }

  lemma IntRead(n: int, r: string)
    requires NoDigit(r)
    ensures ReadValue(IntText(n) + r) == Some((Int(n), r))
  {
    hide ReadNatural, Decimal;
    if n < 0 {
      NaturalRead(-n, r);
      Negative(-n, r);
      assert (['-'] + (Decimal(-n) + r))[1..] == Decimal(-n) + r;
    } else {
      NaturalRead(n, r);
      NotAWord((Decimal(n) + r)[0]);
    }
  }

  lemma NotAWord(c: char)
    requires DigitOf(c).Some?
    ensures c !in {'n', 't', 'f', '"', '[', '{', '-'}
  {
  }

  lemma CharRead(c: char, r: string)
    ensures var x := Escaped(c) + r; x != "" && x[0] != '"' && ReadChar(x) == Some((c, r))
  {
    var e := Escaped(c);
    var x := e + r;
    assert x[|e|..] == r && forall i :: 0 <= i < |e| ==> x[i] == e[i];
    if |e| == 6 { ControlRead(c, x); }
  }

  lemma ControlRead(c: char, x: string)
    requires c < ' ' && |x| >= 6 && x[2] == '0' && x[3] == '0' && x[4] == HexChar(c as int / 16)
             && x[5] == HexChar(c as int % 16)
    requires c !in {'\U{08}', '\t', '\n', '\U{0C}', '\r'}
    ensures LongEscape(x[2..]) == Some(c)
  {
    var code := c as int;
    assert code == 16 * (code / 16) + code % 16 && code / 16 in {0, 1};
    HexRead(code % 16);
    HexRead(code / 16);
    assert code !in {8, 9, 10, 12, 13};
    assert x[2..][0] == x[2] && x[2..][1] == x[3] && x[2..][2] == x[4] && x[2..][3] == x[5];
  }

  lemma HexRead(d: nat)
    requires d < 16
    ensures HexOf(HexChar(d)) == Some(d)
  {
  }

  lemma {:induction false} TextRead(s: string, r: string)
    ensures ReadText(EscapedAll(s) + (['"'] + r)) == Some((s, r))
  {
    hide ReadChar, Escaped;
    var tail := ['"'] + r;
    if s == "" {
      NoEscapes(tail);
      assert tail[0] == '"' && tail[1..] == r;
    } else {
      var rest := EscapedAll(s[1..]) + tail;
      assert EscapedAll(s) + tail == Escaped(s[0]) + rest;
      CharRead(s[0], rest);
      TextRead(s[1..], r);
      assert [s[0]] + s[1..] == s;
    }
  }

  /** A quoted text reads as a key, or as a value. */
  lemma QuotedRead(s: string, r: string)
    ensures var x := QuotedText(s) + r; x != "" && x[0] == '"' && ReadText(x[1..]) == Some((s, r))
  {
    hide EscapedAll, ReadText;
    QuotedSplit(s, r);
    TextRead(s, r);
    assert (['"'] + (EscapedAll(s) + (['"'] + r)))[1..] == EscapedAll(s) + (['"'] + r);
  }

  lemma WordRead(c: string, r: string)
    requires c in {"null", "true", "false"}
    ensures var x := c + r; x != "" && x[0] == c[0] && x[..|c|] == c && x[|c|..] == r
  {
  }

  lemma EndsHasNoDigit(r: string)
    requires Ends(r)
    ensures NoDigit(r)
  {
  }

  /** A printed value, followed by nothing or a separator, reads as itself in key order. */
  lemma {:induction false} ValueRead(v: Value, r: string)
    requires Ends(r)
    ensures ReadValue(PrintTo(v, r)) == Some((InOrder(v), r))
    decreases v, 0
  {
    hide SortedKeys, QuotedText, IntText, ItemsTo, FieldsTo, ReadText, ReadNatural, Ends;
    match v
    case Null => WordRead("null", r);
    case Bool(b) => WordRead(if b then "true" else "false", r);
    case Int(n) => EndsHasNoDigit(r); IntRead(n, r);
    case Text(s) => QuotedRead(s, r);
    case List(items) =>
      var x := ItemsTo(items, [']'] + r);
      assert (['['] + x)[1..] == x;
      if items == [] { EmptyItems(r); } else { ItemsRead(items, r); }
    case Record(entries) =>
      var keys := SortedKeys(KeySet(entries));
      var x := FieldsTo(entries, keys, ['}'] + r);
      assert (['{'] + x)[1..] == x;
      if keys == [] { EmptyFields(entries, keys, r); } else { FieldsRead(entries, keys, r); }
  }

  lemma EmptyItems(r: string)
    ensures var x := ItemsTo([], [']'] + r); x != "" && x[0] == ']' && x[1..] == r
  {
  }

  lemma EmptyFields(entries: seq<Entry>, keys: seq<string>, r: string)
    requires keys == []
    ensures var x := FieldsTo(entries, keys, ['}'] + r); x != "" && x[0] == '}' && x[1..] == r
  {
  }

  lemma Separated(c: char, r: string)
    requires c in {',', ']', '}'}
    ensures Ends([c] + r) && ([c] + r)[0] == c && ([c] + r)[1..] == r
  {
  }

  lemma {:induction false} ItemsRead(items: seq<Value>, r: string)
    requires items != []
    ensures var x := ItemsTo(items, [']'] + r); x != "" && x[0] != ']' && ReadItems(x) == Some((ItemsInOrder(items), r))
    decreases items, 1
  {
    hide PrintTo, ReadValue, InOrder, Ends;
    var tail := if |items| > 1 then [','] + ItemsTo(items[1..], [']'] + r) else [']'] + r;
    Separated(']', r);
    if |items| > 1 { Separated(',', ItemsTo(items[1..], [']'] + r)); }
    ValueRead(items[0], tail);
    StartsValue(items[0], tail);
    if |items| > 1 {
      ItemsRead(items[1..], r);
    } else {
      assert items[1..] == [] && [InOrder(items[0])] + [] == [InOrder(items[0])];
    }
  }

  lemma StartsValue(v: Value, r: string)
    ensures PrintTo(v, r) != "" && PrintTo(v, r)[0] !in {']', '}', ','}
  {
    hide PrintTo;
    FirstChar(v, r);
  }

  lemma {:induction false} FieldsRead(entries: seq<Entry>, keys: seq<string>, r: string)
    requires keys != [] && forall k :: k in keys ==> k in KeySet(entries)
    ensures var x := FieldsTo(entries, keys, ['}'] + r);
            x != "" && x[0] == '"' && ReadFields(x) == Some((FieldsInOrder(entries, keys), r))
    decreases entries, 1, |keys|
  {
    hide PrintTo, ReadValue, ReadText, InOrder, Ends, QuotedText;
    var v := Get(entries, keys[0]);
    var tail := if |keys| > 1 then [','] + FieldsTo(entries, keys[1..], ['}'] + r) else ['}'] + r;
    Separated('}', r);
    if |keys| > 1 { Separated(',', FieldsTo(entries, keys[1..], ['}'] + r)); }
    var colon := [':'] + PrintTo(v, tail);
    QuotedRead(keys[0], colon);
    assert colon[0] == ':' && colon[1..] == PrintTo(v, tail);
    ValueRead(v, tail);
    if |keys| > 1 {
      FieldsRead(entries, keys[1..], r);
    } else {
      assert keys[1..] == [] && [Entry(keys[0], InOrder(v))] + [] == [Entry(keys[0], InOrder(v))];
    }
  }

  // ---------------------------------------------------------------- the value that is read

  /** In every record of the value the keys increase. */
  ghost predicate Ordered(v: Value)
    decreases v
  {
    match v
    case List(items) => forall i :: 0 <= i < |items| ==> Ordered(items[i])
    case Record(entries) =>
      && (forall i, j :: 0 <= i < j < |entries| ==>
         Leq(entries[i].key, entries[j].key) && entries[i].key != entries[j].key)
      && forall i :: 0 <= i < |entries| ==> Ordered(entries[i].value)
    case _ => true
  }

  lemma {:induction false} ItemsAt(items: seq<Value>, i: nat)
    requires i < |items|
    ensures ItemsInOrder(items)[i] == InOrder(items[i])
  {
    if i > 0 { ItemsAt(items[1..], i - 1); }
  }

  lemma {:induction false} FieldsAt(entries: seq<Entry>, keys: seq<string>, i: nat)
    requires i < |keys| && forall k :: k in keys ==> k in KeySet(entries)
    ensures FieldsInOrder(entries, keys)[i] == Entry(keys[i], InOrder(Get(entries, keys[i])))
    decreases |keys|
  {
    hide InOrder;
    if i > 0 { FieldsAt(entries, keys[1..], i - 1); }
  }

  /** Putting the keys in order changes no value. */
  lemma {:induction false} InOrderSame(v: Value)
    ensures Same(InOrder(v), v) && Ordered(InOrder(v))
    decreases v
  {
    match v
    case List(items) =>
      forall i | 0 <= i < |items| ensures Same(ItemsInOrder(items)[i], items[i]) && Ordered(ItemsInOrder(items)[i]) {
        hide Same, Ordered, InOrder;
        ItemsAt(items, i);
        InOrderSame(items[i]);
      }
    case Record(entries) =>
      hide Same, Ordered, SortedKeys;
      var keys := SortedKeys(KeySet(entries));
      var fields := FieldsInOrder(entries, keys);
      KeysAreSorted(KeySet(entries));
      forall i | 0 <= i < |keys|
        ensures fields[i].key == keys[i] && Ordered(fields[i].value) && Same(fields[i].value, Get(entries, keys[i]))
      {
        FieldsAt(entries, keys, i);
        InOrderSame(Get(entries, keys[i]));
      }
      FieldsSame(entries, keys, fields);
      RecordInOrder(entries, keys, fields);
    case _ =>
  }

  lemma RecordInOrder(entries: seq<Entry>, keys: seq<string>, fields: seq<Entry>)
    requires Increasing(keys) && |fields| == |keys| && KeySet(fields) == KeySet(entries)
    requires forall i :: 0 <= i < |keys| ==> fields[i].key == keys[i] && Ordered(fields[i].value)
    requires forall k :: k in KeySet(fields) ==> Same(Get(fields, k), Get(entries, k))
    ensures Same(Record(fields), Record(entries)) && Ordered(Record(fields))
  {
    hide Leq, KeySet, Get;
  }

  lemma FieldsSame(entries: seq<Entry>, keys: seq<string>, fields: seq<Entry>)
    requires (forall k :: k in keys <==> k in KeySet(entries)) && |fields| == |keys|
    requires forall i :: 0 <= i < |keys| ==> fields[i].key == keys[i] && Same(fields[i].value, Get(entries, keys[i]))
    ensures KeySet(fields) == KeySet(entries)
    ensures forall k :: k in KeySet(fields) ==> Same(Get(fields, k), Get(entries, k))
  {
    forall k ensures k in KeySet(fields) <==> k in KeySet(entries) {
      if k in KeySet(entries) {
        var i :| 0 <= i < |keys| && keys[i] == k;
        assert fields[i].key == k;
      }
    }
    forall k | k in KeySet(fields) ensures Same(Get(fields, k), Get(entries, k)) {
      var v := Get(fields, k);
      var i :| 0 <= i < |fields| && fields[i] == Entry(k, v);
      assert fields[i].key == keys[i];
    }
  }

  /** `canonicalJson` prints the JSON of its value: the strict reader takes the whole text, what it reads is the value
      itself, and the keys of every record stand in increasing order in the text. */
  lemma PrintedReads(v: Value)
    ensures ReadValue(Print(v)).Some? && ReadValue(Print(v)).value.1 == ""
    ensures Same(ReadValue(Print(v)).value.0, v) && Ordered(ReadValue(Print(v)).value.0)
  {
    PrintToIs(v, "");
    assert Print(v) + "" == Print(v);
    ValueRead(v, "");
    InOrderSame(v);
  }

  // ---------------------------------------------------------------- every readable text is a printed one

  lemma DecimalNext(acc: nat, d: nat)
    requires acc > 0 && d < 10
    ensures Decimal(10 * acc + d) == Decimal(acc) + [DigitChar(d)]
  {
    assert (10 * acc + d) / 10 == acc && (10 * acc + d) % 10 == d;
  }

  lemma DigitIs(c: char)
    requires DigitOf(c).Some?
    ensures DigitOf(c).value < 10 && c == DigitChar(DigitOf(c).value)
    ensures c != '0' ==> DigitOf(c).value > 0
  {
  }

  lemma {:induction false} DigitsPrinted(s: string, acc: nat)
    requires acc > 0
    ensures var (n, rest) := ReadDigits(s, acc); Decimal(acc) + s == Decimal(n) + rest
    decreases |s|
  {
    hide Decimal;
    if s != "" && DigitOf(s[0]).Some? {
      var d := DigitOf(s[0]).value;
      DigitIs(s[0]);
      DecimalNext(acc, d);
      DigitsPrinted(s[1..], 10 * acc + d);
      assert [s[0]] + s[1..] == s;
      Append(Decimal(acc), [s[0]], s[1..]);
    }
  }

  lemma NaturalPrinted(s: string)
    requires ReadNatural(s).Some?
    ensures var (n, rest) := ReadNatural(s).value; s == Decimal(n) + rest
  {
    DigitIs(s[0]);
    assert [s[0]] + s[1..] == s;
    if s[0] != '0' { DigitsPrinted(s[1..], DigitOf(s[0]).value); }
  }

  lemma HexPrinted(c: char)
    requires HexOf(c).Some?
    ensures HexOf(c).value < 16 && c == HexChar(HexOf(c).value)
  {
  }

  lemma LongPrinted(s: string)
    requires LongEscape(s).Some?
    ensures |s| >= 4 && Escaped(LongEscape(s).value) == ['\\', 'u'] + s[..4]
  {
    HexPrinted(s[3]);
    var high, low := if s[2] == '1' then 1 else 0, HexOf(s[3]).value;
    var c := LongEscape(s).value;
    assert c as int == 16 * high + low && c as int / 16 == high && c as int % 16 == low;
    assert c !in {'\U{08}', '\t', '\n', '\U{0C}', '\r', '"', '\\'} && c < ' ';
    assert s[..4] == [s[0], s[1], s[2], s[3]];
  }

  lemma CharPrinted(s: string)
    requires ReadChar(s).Some?
    ensures var (c, rest) := ReadChar(s).value; s == Escaped(c) + rest
  {
    var (c, rest) := ReadChar(s).value;
    if s[0] != '\\' {
      assert s == [s[0]] + s[1..];
    } else if s[1] == 'u' {
      LongPrinted(s[2..]);
      assert s == (['\\', 'u'] + s[2..][..4]) + s[6..];
    } else {
      assert s == [s[0], s[1]] + s[2..];
    }
  }

  lemma {:induction false} TextPrinted(s: string)
    requires ReadText(s).Some?
    ensures var (text, rest) := ReadText(s).value; s == EscapedAll(text) + (['"'] + rest)
    decreases |s|
  {
    hide ReadChar, Escaped;
    var (text, rest) := ReadText(s).value;
    if s != "" && s[0] == '"' {
      NoEscapes(['"'] + rest);
      assert s == ['"'] + s[1..];
    } else {
      CharPrinted(s);
      var (c, after) := ReadChar(s).value;
      TextPrinted(after);
      assert text[0] == c && text[1..] == ReadText(after).value.0;
      Append(Escaped(c), EscapedAll(text[1..]), ['"'] + rest);
    }
  }

  lemma QuotedPrinted(s: string)
    requires s != "" && s[0] == '"' && ReadText(s[1..]).Some?
    ensures var (text, rest) := ReadText(s[1..]).value; s == QuotedText(text) + rest
  {
    hide EscapedAll, ReadText;
    var (text, rest) := ReadText(s[1..]).value;
    TextPrinted(s[1..]);
    QuotedSplit(text, rest);
    assert s == ['"'] + s[1..];
  }

  /** The printed fields in the order of the entries. */
  ghost function InText(entries: seq<Entry>, r: string): string
    decreases entries
  {
    if entries == [] then r
    else QuotedText(entries[0].key) + ([':'] + PrintTo(entries[0].value,
      if |entries| > 1 then [','] + InText(entries[1..], r) else r))
  }

  function KeyList(entries: seq<Entry>): (keys: seq<string>)
    ensures |keys| == |entries| && forall i :: 0 <= i < |keys| ==> keys[i] == entries[i].key
  {
    if entries == [] then [] else [entries[0].key] + KeyList(entries[1..])
  }

  /** There is only one way to put a set of keys in increasing order. */
  lemma {:induction false} OneOrder(a: seq<string>, b: seq<string>)
    requires Increasing(a) && Increasing(b) && forall k :: k in a <==> k in b
    ensures a == b
    decreases |a|
  {
    hide Leq;
    assert (a != [] ==> a[0] in b) && (b != [] ==> b[0] in a);
    if a != [] && b != [] {
      LeqTotal(a[0], b[0]);
      assert a[0] == b[0];
      forall k ensures k in a[1..] <==> k in b[1..] {
        assert k in a <==> k == a[0] || k in a[1..];
        assert k in b <==> k == b[0] || k in b[1..];
      }
      OneOrder(a[1..], b[1..]);
      assert a == [a[0]] + a[1..] && b == [b[0]] + b[1..];
    }
  }

  lemma SortedAlready(entries: seq<Entry>)
    requires Increasing(KeyList(entries))
    ensures SortedKeys(KeySet(entries)) == KeyList(entries)
  {
    hide SortedKeys, Increasing;
    KeysAreSorted(KeySet(entries));
    var keys := KeyList(entries);
    forall k ensures k in keys <==> k in KeySet(entries) {
      if k in KeySet(entries) { var i :| 0 <= i < |entries| && entries[i].key == k; assert keys[i] == k; }
    }
    OneOrder(SortedKeys(KeySet(entries)), keys);
  }

  lemma KeysDistinct(entries: seq<Entry>, i: nat, j: nat)
    requires i < |entries| && j < |entries| && Increasing(KeyList(entries)) && entries[i].key == entries[j].key
    ensures i == j
  {
    hide Leq;
    var keys := KeyList(entries);
    assert keys[i] == keys[j];
  }

  lemma GetAt(entries: seq<Entry>, i: nat)
    requires i < |entries| && Increasing(KeyList(entries))
    ensures entries[i].key in KeySet(entries) && Get(entries, entries[i].key) == entries[i].value
  {
    hide Get, Increasing;
    var v := Get(entries, entries[i].key);
    var j :| 0 <= j < |entries| && entries[j] == Entry(entries[i].key, v);
    KeysDistinct(entries, i, j);
  }

  lemma {:induction false} SuffixInText(entries: seq<Entry>, i: nat, r: string)
    requires i <= |entries| && Increasing(KeyList(entries))
    ensures forall k :: k in KeyList(entries)[i..] ==> k in KeySet(entries)
    ensures FieldsTo(entries, KeyList(entries)[i..], r) == InText(entries[i..], r)
    decreases |entries| - i
  {
    hide PrintTo, QuotedText, Increasing, Get;
    var keys := KeyList(entries)[i..];
    forall k | k in keys ensures k in KeySet(entries) {
      var j :| 0 <= j < |keys| && keys[j] == k;
      assert entries[i + j].key == k;
    }
    if i < |entries| {
      GetAt(entries, i);
      SuffixInText(entries, i + 1, r);
      assert keys[1..] == KeyList(entries)[i + 1..] && entries[i..][1..] == entries[i + 1..];
    }
  }

  lemma FieldsInText(entries: seq<Entry>, r: string)
    requires Increasing(KeyList(entries))
    ensures FieldsTo(entries, SortedKeys(KeySet(entries)), r) == InText(entries, r)
  {
    hide SortedKeys, Increasing, FieldsTo;
    SortedAlready(entries);
    SuffixInText(entries, 0, r);
    assert KeyList(entries)[0..] == KeyList(entries) && entries[0..] == entries;
  }

  lemma KeysIncrease(entries: seq<Entry>)
    requires Ordered(Record(entries))
    ensures Increasing(KeyList(entries))
  {
    hide Leq;
  }

  lemma WordPrinted(s: string, word: string, v: Value)
    requires word != "" && ReadWord(s, word, v).Some?
    ensures s == word + ReadWord(s, word, v).value.1
  {
  }

  /** What the reader takes as a value with increasing keys is the printed form of that value. */
  lemma {:induction false} ValuePrinted(s: string)
    requires ReadValue(s).Some? && Ordered(ReadValue(s).value.0)
    ensures var (v, rest) := ReadValue(s).value; s == PrintTo(v, rest)
    decreases |s|, 0
  {
    hide ReadText, ReadNatural, QuotedText, Decimal, SortedKeys, ItemsTo, FieldsTo;
    var (v, rest) := ReadValue(s).value;
    if s[0] == 'n' {
      WordPrinted(s, "null", Null);
    } else if s[0] == 't' {
      WordPrinted(s, "true", Bool(true));
    } else if s[0] == 'f' {
      WordPrinted(s, "false", Bool(false));
    } else if s[0] == '"' {
      QuotedPrinted(s);
    } else if s[0] == '[' {
      ListPrinted(s);
    } else if s[0] == '{' {
      RecordPrinted(s);
    } else if s[0] == '-' {
      NaturalPrinted(s[1..]);
      Negative(-v.n, rest);
      assert s == ['-'] + s[1..];
    } else {
      NaturalPrinted(s);
    }
  }

  lemma {:induction false} ListPrinted(s: string)
    requires s != "" && s[0] == '[' && ReadValue(s).Some? && Ordered(ReadValue(s).value.0)
    ensures var (v, rest) := ReadValue(s).value; s == PrintTo(v, rest)
    decreases |s|, 0, 1
  {
    hide ReadItems, ItemsTo, PrintTo;
    var (v, rest) := ReadValue(s).value;
    if |s| > 1 && s[1] == ']' {
      EmptyItems(rest);
      assert s == ['['] + ([']'] + rest);
    } else {
      ItemsPrinted(s[1..]);
      assert s == ['['] + s[1..];
    }
    ListText(v.items, rest);
  }

  lemma ListText(items: seq<Value>, r: string)
    ensures PrintTo(List(items), r) == ['['] + ItemsTo(items, [']'] + r)
    ensures ItemsTo([], [']'] + r) == [']'] + r
  {
  }

  lemma {:induction false} ItemsPrinted(s: string)
    requires ReadItems(s).Some? && forall i :: 0 <= i < |ReadItems(s).value.0| ==> Ordered(ReadItems(s).value.0[i])
    ensures var (items, rest) := ReadItems(s).value; items != [] && s == ItemsTo(items, [']'] + rest)
    decreases |s|, 1
  {
    hide ReadValue, PrintTo, Ordered;
    var (items, rest) := ReadItems(s).value;
    var (v, after) := ReadValue(s).value;
    assert items[0] == v;
    ValuePrinted(s);
    assert after == [after[0]] + after[1..];
    if after[0] == ',' {
      var tail := ReadItems(after[1..]).value.0;
      assert forall i :: 0 <= i < |tail| ==> tail[i] == items[i + 1];
      assert items[1..] == tail;
      ItemsPrinted(after[1..]);
    }
  }

  lemma {:induction false} RecordPrinted(s: string)
    requires s != "" && s[0] == '{' && ReadValue(s).Some? && Ordered(ReadValue(s).value.0)
    ensures var (v, rest) := ReadValue(s).value; s == PrintTo(v, rest)
    decreases |s|, 0, 1
  {
    hide ReadFields, FieldsTo, PrintTo, SortedKeys, InText;
    var (v, rest) := ReadValue(s).value;
    KeysIncrease(v.entries);
    FieldsInText(v.entries, ['}'] + rest);
    RecordText(v.entries, rest);
    if |s| > 1 && s[1] == '}' {
      assert s == ['{'] + (['}'] + rest);
    } else {
      FieldsPrinted(s[1..]);
      assert s == ['{'] + s[1..];
    }
  }

  lemma RecordText(entries: seq<Entry>, r: string)
    ensures PrintTo(Record(entries), r) == ['{'] + FieldsTo(entries, SortedKeys(KeySet(entries)), ['}'] + r)
    ensures InText([], ['}'] + r) == ['}'] + r
  {
  }

  lemma {:induction false} FieldsPrinted(s: string)
    requires ReadFields(s).Some?
    requires forall i :: 0 <= i < |ReadFields(s).value.0| ==> Ordered(ReadFields(s).value.0[i].value)
    ensures var (entries, rest) := ReadFields(s).value; entries != [] && s == InText(entries, ['}'] + rest)
    decreases |s|, 1
  {
    hide ReadValue, ReadText, PrintTo, Ordered, QuotedText;
    var (entries, rest) := ReadFields(s).value;
    QuotedPrinted(s);
    var (key, colon) := ReadText(s[1..]).value;
    var (v, after) := ReadValue(colon[1..]).value;
    assert entries[0] == Entry(key, v);
    ValuePrinted(colon[1..]);
    assert colon == [':'] + colon[1..] && after == [after[0]] + after[1..];
    if after[0] == ',' {
      var tail := ReadFields(after[1..]).value.0;
      assert forall i :: 0 <= i < |tail| ==> tail[i] == entries[i + 1];
      assert entries[1..] == tail;
      FieldsPrinted(after[1..]);
    }
  }

  /** The printed form is fixed by the reader alone: a text is what `canonicalJson` prints for a value exactly if the
      strict reader takes the whole of it, as the same value, with increasing keys in every record. */
  lemma PrintedExactly(v: Value, s: string)
    ensures s == Print(v) <==>
            && ReadValue(s).Some? && ReadValue(s).value.1 == ""
            && Same(ReadValue(s).value.0, v) && Ordered(ReadValue(s).value.0)
  {
    hide Same, Ordered, ReadValue;
    if s == Print(v) {
      PrintedReads(v);
    } else if ReadValue(s).Some? && ReadValue(s).value.1 == "" && Same(ReadValue(s).value.0, v)
              && Ordered(ReadValue(s).value.0) {
      var w := ReadValue(s).value.0;
      ValuePrinted(s);
      PrintToIs(w, "");
      assert Print(w) + "" == Print(w);
      SamePrints(w, v);
    }
  }
}
