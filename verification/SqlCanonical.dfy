/** `canonicalSql` and `canonicalSchema`: the index-driven scanner, proved against the tokenizer of `SqlLexer`. */
module SqlCanonical {
  import opened Wrappers
  import opened SqlLexer
  import opened SqlLexerTheorems

  /** The tokens without one trailing semicolon. */
  function Canonical(sql: string): Option<seq<string>> {
    var r := Lex(sql);
    if r.Some? && r.value != [] && r.value[|r.value| - 1] == ";" then Some(r.value[..|r.value| - 1]) else r
  }

  lemma PrependMany(tokens: seq<string>, token: string, rest: Option<seq<string>>)
    ensures Concat(Some(tokens), Prepend(token, rest)) == Concat(Some(tokens + [token]), rest)
  {
    if rest.Some? { assert tokens + ([token] + rest.value) == (tokens + [token]) + rest.value; }
  }

  /** The rest of a text after its head. */
  lemma Advance(sql: string, i: nat, n: nat)
    requires i + n <= |sql|
    ensures sql[i..][n..] == sql[i + n..] && sql[i..][..n] == sql[i..i + n]
  {
  }

  lemma {:induction false} QuoteShift(sql: string, start: nat, i: nat, quote: char)
    requires start <= i && start <= |sql|
    ensures QuoteEnd(sql[start..], i - start, quote)
            == if QuoteEnd(sql, i, quote).Some? then Some(QuoteEnd(sql, i, quote).value - start) else None
    decreases |sql| - i
  {
    if i < |sql| {
      var s := sql[start..];
      assert |s| == |sql| - start && s[i - start] == sql[i];
      if i + 1 < |sql| { assert s[i + 1 - start] == sql[i + 1]; }
      QuoteShift(sql, start, i + 1, quote);
      QuoteShift(sql, start, i + 2, quote);
    }
  }

  /** One step of the scanner at position i. */
  lemma ScanStep(sql: string, i: nat, tokens: seq<string>)
    requires i < |sql|
    ensures var rest := sql[i..]; var h := HeadOf(rest);
            && (h.Skip? ==> Concat(Some(tokens), Lex(rest)) == Concat(Some(tokens), Lex(sql[i + h.n..])))
            && (h.Token? ==>
               Concat(Some(tokens), Lex(rest))
               == Concat(Some(tokens + [sql[i..i + h.n]]), Lex(sql[i + h.n..])))
            && (h.Bad? ==> Lex(rest) == None)
  {
    hide HeadOf;
    var rest := sql[i..];
    var h := HeadOf(rest);
    if !h.Bad? {
      Advance(sql, i, h.n);
      if h.Token? { PrependMany(tokens, rest[..h.n], Lex(rest[h.n..])); }
    }
  }

  /** The inner loop of the scanner: from the opening quote at `start` to just after the closing one. */
  method ScanQuote(sql: string, start: nat) returns (end: Option<nat>)
    requires start < |sql| && Quote(sql[start])
    ensures end == QuoteEnd(sql, start + 1, sql[start])
  {
    var quote := sql[start];
    var i := start + 1;
    while i < |sql|
      invariant start < i && QuoteEnd(sql, start + 1, quote) == QuoteEnd(sql, i, quote)
    {
      var c := sql[i];
      i := i + 1;
      if c != Closing(quote) { continue; }
      if quote != '[' && i < |sql| && sql[i] == Closing(quote) {
        i := i + 1;
        continue;
      }
      return Some(i);
    }
    return None;
  }

  /** The scanner. It stops with None at an unterminated comment or quote, or at a character that starts no token. */
  method CanonicalSql(sql: string) returns (r: Option<seq<string>>)
    ensures r == Canonical(sql)
  {
    hide HeadOf, Lex, Run, TokenEnd, BlobEnd, LineEnd, CommentEnd, QuoteEnd, Layout, Quote;
    var tokens: seq<string> := [];
    var i := 0;
    assert sql[0..] == sql;
    NothingBefore(Lex(sql));
    while i < |sql|
      invariant 0 <= i <= |sql|
      invariant Concat(Some(tokens), Lex(sql[i..])) == Lex(sql)
    {
      var rest := sql[i..];
      ScanStep(sql, i, tokens);
      HeadCases(rest);
      if Layout(rest[0]) {
        i := i + Run(rest, 1, Layout);
        continue;
      }
      if At(rest, 0) == '-' && At(rest, 1) == '-' {
        var end := LineEnd(rest, 2);
        i := if end.None? then |sql| else i + end.value + 1;
        continue;
      }
      if At(rest, 0) == '/' && At(rest, 1) == '*' {
        var end := CommentEnd(rest, 2);
        if end.None? { return None; }
        i := i + end.value;
        continue;
      }
      var blob := BlobEnd(rest);
      if blob.Some? {
        tokens := tokens + [sql[i..i + blob.value]];
        i := i + blob.value;
        continue;
      }
      if Quote(sql[i]) {
        var end := ScanQuote(sql, i);
        QuoteShift(sql, i, i + 1, sql[i]);
        if end.None? { return None; }
        tokens := tokens + [sql[i..end.value]];
        i := end.value;
        continue;
      }
      var token := TokenEnd(rest);
      if token.None? { return None; }
      tokens := tokens + [sql[i..i + token.value]];
      i := i + token.value;
    }
    AllRead(sql, tokens);
    if tokens != [] && tokens[|tokens| - 1] == ";" { tokens := tokens[..|tokens| - 1]; }
    return Some(tokens);
  }

  lemma AllRead(sql: string, tokens: seq<string>)
    requires Concat(Some(tokens), Lex(sql[|sql|..])) == Lex(sql)
    ensures Lex(sql) == Some(tokens)
  {
    assert sql[|sql|..] == [] && tokens + [] == tokens;
  }

  lemma HeadCases(s: string)
    requires s != []
    ensures Layout(s[0]) ==> HeadOf(s) == Skip(Run(s, 1, Layout))
    ensures !Layout(s[0]) && At(s, 0) == '-' && At(s, 1) == '-' ==>
              HeadOf(s) == Skip(if LineEnd(s, 2).Some? then LineEnd(s, 2).value + 1 else |s|)
    ensures At(s, 0) == '/' && At(s, 1) == '*' ==>
              HeadOf(s)
              == if CommentEnd(s, 2).Some? then Skip(CommentEnd(s, 2).value) else Bad
    ensures var plain := !Layout(s[0]) && !(At(s, 0) == '-' && At(s, 1) == '-')
            && !(At(s, 0) == '/' && At(s, 1) == '*');
            && (plain && BlobEnd(s).Some? ==> HeadOf(s) == Token(BlobEnd(s).value))
            && (plain && BlobEnd(s).None? && Quote(s[0]) ==>
                  HeadOf(s) == if QuoteEnd(s, 1, s[0]).Some? then Token(QuoteEnd(s, 1, s[0]).value) else Bad)
            && (plain && BlobEnd(s).None? && !Quote(s[0]) ==>
               HeadOf(s) == if TokenEnd(s).Some? then Token(TokenEnd(s).value) else Bad)
  {
  }

  /** Canonicalizing printed tokens again changes nothing exactly if they do not end in a semicolon: one call removes
      one. */
  lemma CanonicalAgain(sql: string)
    requires Canonical(sql).Some?
    ensures var tokens := Canonical(sql).value;
            Canonical(Join(tokens)) == Some(tokens) <==> tokens == [] || tokens[|tokens| - 1] != ";"
  {
    LexedTokens(sql);
    JoinReads(Canonical(sql).value);
  }

  /** Two semicolons: the first call leaves one, the second call none. */
  lemma TwoSemicolons()
    ensures Canonical(";;") == Some([";"]) && Canonical(Join([";"])) == Some([])
  {
    assert HeadOf(";") == Token(1) && HeadOf(";;") == Token(1);
    hide HeadOf;
    var one, two := ";", ";;";
    assert two[..1] == one && two[1..] == one && one[..1] == one && one[1..] == "";
    assert Lex("") == Some([]) && Lex(one) == Prepend(one, Lex("")) && Lex(two) == Prepend(one, Lex(one));
    assert [one] + [] == [one] && [one] + [one] == [one, one] && [one, one][..1] == [one];
    JoinReads([one]);
  }

  datatype SchemaRow = SchemaRow(kind: string, name: string, table: string, sql: string)
  datatype CanonicalRow = CanonicalRow(kind: string, name: string, table: string, sql: seq<string>)

  /** `canonicalSchema`: None if some row does not tokenize. */
  function CanonicalSchema(rows: seq<SchemaRow>): (r: Option<seq<CanonicalRow>>)
    ensures r.Some? <==> forall i :: 0 <= i < |rows| ==> Lex(rows[i].sql).Some?
    ensures r.Some? ==> |r.value| == |rows|
    ensures r.Some? ==> forall i :: 0 <= i < |rows| ==>
              Canonical(rows[i].sql).Some? && r.value[i] == CanonicalRow(rows[i].kind, rows[i].name, rows[i].table,
                Canonical(rows[i].sql).value)
  {
    if rows == [] then Some([])
    else
      var first := Canonical(rows[0].sql);
      var rest := CanonicalSchema(rows[1..]);
      assert forall i :: 0 < i < |rows| ==> rows[i] == rows[1..][i - 1];
      if first.None? || rest.None? then None
      else Some([CanonicalRow(rows[0].kind, rows[0].name, rows[0].table, first.value)] + rest.value)
  }

  /** Two schemas compare equal exactly if they have the same objects in the same order with the same canonical SQL. */
  lemma SchemasEqual(a: seq<SchemaRow>, b: seq<SchemaRow>)
    requires CanonicalSchema(a).Some? && CanonicalSchema(b).Some?
    ensures CanonicalSchema(a) == CanonicalSchema(b) <==>
              |a| == |b| && forall i :: 0 <= i < |a| ==>
                a[i].kind == b[i].kind && a[i].name == b[i].name && a[i].table == b[i].table
                  && Canonical(a[i].sql) == Canonical(b[i].sql)
  {
    var x, y := CanonicalSchema(a).value, CanonicalSchema(b).value;
    if x == y {
      forall i | 0 <= i < |a|
        ensures a[i].kind == b[i].kind && a[i].name == b[i].name && a[i].table == b[i].table
                && Canonical(a[i].sql) == Canonical(b[i].sql)
      {
        assert x[i] == y[i];
      }
    }
  }
}
