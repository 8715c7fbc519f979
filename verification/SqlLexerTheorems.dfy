/** Composition and round trips of the SQL tokenizer. */
module SqlLexerTheorems {
  import opened Wrappers
  import opened SqlLexer

  // ---------------------------------------------------------------- a token and what follows it

  /** Character `c` directly after `token` is the start of something else: layout, or the first character of a comment.
      The one exception is a line comment directly after a minus sign, which the minus sign makes part of its own
      comment. */
  predicate Ends(token: string, c: char) {
    (Layout(c) || c == '/' || c == '-') && (token == "-" ==> c != '-')
  }

  /** `t` starts like `s` up to position n, and what stands there, or nothing, does not continue it. */
  predicate CutAt(s: string, t: string, n: nat) {
    && n <= |s| && n <= |t| && s[..n] == t[..n]
    && Ends(s[..n], At(t, n))
  }

  lemma CutChars(s: string, t: string, n: nat)
    requires CutAt(s, t, n)
    ensures forall i :: 0 <= i < n ==> At(t, i) == At(s, i)
  {
    forall i | 0 <= i < n ensures At(t, i) == At(s, i) { assert s[..n][i] == t[..n][i]; }
  }

  lemma {:induction false} RunCut(s: string, t: string, n: nat, i: nat, f: char -> bool)
    requires CutAt(s, t, n) && i <= Run(s, i, f) <= n && !f(At(t, n)) && !f('\n')
    ensures Run(t, i, f) == Run(s, i, f)
    decreases |s| - i
  {
    CutChars(s, t, n);
    if i < Run(s, i, f) { RunCut(s, t, n, i + 1, f); }
  }

  lemma {:induction false} DigitsCut(s: string, t: string, n: nat, i: nat, f: char -> bool)
    requires CutAt(s, t, n) && !f('\n') && Digits(s, i, f) <= n && !f(At(t, n)) && !f('_')
    ensures Digits(t, i, f) == Digits(s, i, f)
    decreases |s| - i
  {
    CutChars(s, t, n);
    if i < |s| && f(s[i]) {
      DigitsCut(s, t, n, i + 1, f);
    } else if i < |s| && s[i] == '_' && f(At(s, i + 1)) {
      DigitsCut(s, t, n, i + 2, f);
    }
  }

  lemma ExponentCut(s: string, t: string, n: nat, k: nat)
    requires CutAt(s, t, n) && Exponent(s, k) == n
    ensures Exponent(t, k) == Exponent(s, k)
  {
    CutChars(s, t, n);
    if (At(s, k) == 'e' || At(s, k) == 'E') && Exponent(s, k) > k {
      var j := if At(s, k + 1) == '+' || At(s, k + 1) == '-' then k + 2 else k + 1;
      DigitsCut(s, t, n, j + 1, Digit);
    }
  }

  lemma NumberCut(s: string, t: string, n: nat)
    requires CutAt(s, t, n) && NumberEnd(s) == Some(n)
    ensures NumberEnd(t) == Some(n)
  {
    CutChars(s, t, n);
    if At(s, 0) == '0' && (At(s, 1) == 'x' || At(s, 1) == 'X') && HexDigit(At(s, 2)) {
      DigitsCut(s, t, n, 3, HexDigit);
    } else if Digit(At(s, 0)) {
      var j := Digits(s, 1, Digit);
      var k := if At(s, j) != '.' then j else if Digit(At(s, j + 1)) then Digits(s, j + 2, Digit) else j + 1;
      DigitsCut(s, t, n, 1, Digit);
      if At(s, j) == '.' && Digit(At(s, j + 1)) { DigitsCut(s, t, n, j + 2, Digit); }
      ExponentCut(s, t, n, k);
    } else {
      DigitsCut(s, t, n, 2, Digit);
      ExponentCut(s, t, n, Digits(s, 2, Digit));
    }
  }

  lemma {:induction false} QuoteCut(s: string, t: string, n: nat, i: nat, quote: char)
    requires CutAt(s, t, n) && Quote(quote) && QuoteEnd(s, i, quote) == Some(n)
    ensures QuoteEnd(t, i, quote) == Some(n)
    decreases |s| - i
  {
    CutChars(s, t, n);
    if s[i] != Closing(quote) {
      QuoteCut(s, t, n, i + 1, quote);
    } else if quote != '[' && i + 1 < |s| && s[i + 1] == Closing(quote) {
      QuoteCut(s, t, n, i + 2, quote);
    }
  }

  /** A token depends only on its own characters: followed by layout, a comment or the end, it is recognised again. */
  lemma TokenCut(s: string, t: string, n: nat)
    requires s != [] && HeadOf(s) == Token(n) && CutAt(s, t, n)
    ensures t != [] && HeadOf(t) == Token(n)
  {
    CutChars(s, t, n);
    if BlobEnd(s).Some? {
      RunCut(s, t, n, 2, HexDigit);
    } else if Quote(s[0]) {
      QuoteCut(s, t, n, 1, s[0]);
    } else if IdentStart(At(s, 0)) {
      RunCut(s, t, n, 1, IdentPart);
    } else if NumberEnd(s).Some? {
      NumberCut(s, t, n);
    }
  }

  // ---------------------------------------------------------------- a text continued on the next line

  lemma ExtChars(a: string, b: string)
    ensures forall i :: 0 <= i <= |a| ==> At(a + "\n" + b, i) == At(a, i)
  {
    var t := a + "\n" + b;
    assert |t| == |a| + 1 + |b| && t[..|a|] == a && t[|a|] == '\n';
    forall i | 0 <= i <= |a| ensures At(t, i) == At(a, i) { if i < |a| { assert t[..|a|][i] == a[i]; } }
  }

  lemma {:induction false} RunExt(a: string, b: string, i: nat, f: char -> bool)
    requires i <= |a| && !f('\n')
    ensures Run(a + "\n" + b, i, f) == Run(a, i, f)
    decreases |a| - i
  {
    ExtChars(a, b);
    if i < |a| && f(a[i]) { RunExt(a, b, i + 1, f); }
  }

  lemma {:induction false} DigitsExt(a: string, b: string, i: nat, f: char -> bool)
    requires i <= |a| && !f('\n')
    ensures Digits(a + "\n" + b, i, f) == Digits(a, i, f)
    decreases |a| - i
  {
    ExtChars(a, b);
    if i < |a| && f(a[i]) {
      DigitsExt(a, b, i + 1, f);
    } else if i < |a| && a[i] == '_' && f(At(a, i + 1)) {
      DigitsExt(a, b, i + 2, f);
    }
  }

  lemma ExponentExt(a: string, b: string, k: nat)
    requires k <= |a|
    ensures Exponent(a + "\n" + b, k) == Exponent(a, k)
  {
    ExtChars(a, b);
    if At(a, k) == 'e' || At(a, k) == 'E' {
      var j := if At(a, k + 1) == '+' || At(a, k + 1) == '-' then k + 2 else k + 1;
      if Digit(At(a, j)) { DigitsExt(a, b, j + 1, Digit); }
    }
  }

  lemma NumberExt(a: string, b: string)
    ensures NumberEnd(a + "\n" + b) == NumberEnd(a)
  {
    ExtChars(a, b);
    if At(a, 0) == '0' && (At(a, 1) == 'x' || At(a, 1) == 'X') && HexDigit(At(a, 2)) {
      DigitsExt(a, b, 3, HexDigit);
    } else if Digit(At(a, 0)) {
      var j := Digits(a, 1, Digit);
      var k := if At(a, j) != '.' then j else if Digit(At(a, j + 1)) then Digits(a, j + 2, Digit) else j + 1;
      DigitsExt(a, b, 1, Digit);
      if At(a, j) == '.' && Digit(At(a, j + 1)) { DigitsExt(a, b, j + 2, Digit); }
      ExponentExt(a, b, k);
    } else if At(a, 0) == '.' && Digit(At(a, 1)) {
      DigitsExt(a, b, 2, Digit);
      ExponentExt(a, b, Digits(a, 2, Digit));
    }
  }

  lemma {:induction false} QuoteExt(a: string, b: string, i: nat, quote: char)
    requires Quote(quote) && QuoteEnd(a, i, quote).Some?
    ensures QuoteEnd(a + "\n" + b, i, quote) == QuoteEnd(a, i, quote)
    decreases |a| - i
  {
    ExtChars(a, b);
    if a[i] != Closing(quote) {
      QuoteExt(a, b, i + 1, quote);
    } else if quote != '[' && i + 1 < |a| && a[i + 1] == Closing(quote) {
      QuoteExt(a, b, i + 2, quote);
    }
  }

  lemma {:induction false} CommentExt(a: string, b: string, i: nat)
    requires CommentEnd(a, i).Some?
    ensures CommentEnd(a + "\n" + b, i) == CommentEnd(a, i)
    decreases |a| - i
  {
    ExtChars(a, b);
    if !(a[i] == '*' && a[i + 1] == '/') { CommentExt(a, b, i + 1); }
  }

  lemma {:induction false} LineExt(a: string, b: string, i: nat)
    requires i <= |a|
    ensures LineEnd(a + "\n" + b, i) == Some(if LineEnd(a, i).Some? then LineEnd(a, i).value else |a|)
    decreases |a| - i
  {
    ExtChars(a, b);
    if i < |a| && a[i] != '\n' { LineExt(a, b, i + 1); }
  }

  lemma BlobExt(a: string, b: string)
    ensures BlobEnd(a + "\n" + b) == BlobEnd(a)
  {
    ExtChars(a, b);
    if |a| >= 2 { RunExt(a, b, 2, HexDigit); }
  }

  lemma TokenEndExt(a: string, b: string)
    requires a != []
    ensures TokenEnd(a + "\n" + b) == TokenEnd(a)
  {
    hide NumberEnd, OperatorEnd;
    ExtChars(a, b);
    RunExt(a, b, 1, IdentPart);
    NumberExt(a, b);
    OperatorExt(a, b);
  }

  lemma OperatorExt(a: string, b: string)
    ensures OperatorEnd(a + "\n" + b) == OperatorEnd(a)
  {
    ExtChars(a, b);
  }

  /** The head of a text is recognised the same when more lines follow, unless it is layout or a last line comment. */
  lemma HeadExt(a: string, b: string)
    requires a != [] && !HeadOf(a).Bad? && !Layout(a[0])
    ensures HeadOf(a + "\n" + b) == if At(a, 0) == '-' && At(a, 1) == '-' && LineEnd(a, 2).None? then Skip(|a| + 1)
            else HeadOf(a)
  {
    hide BlobEnd, TokenEnd, QuoteEnd, LineEnd, CommentEnd, Layout, Quote;
    ExtChars(a, b);
    BlobExt(a, b);
    TokenEndExt(a, b);
    if At(a, 0) == '-' && At(a, 1) == '-' {
      LineExt(a, b, 2);
    } else if At(a, 0) == '/' && At(a, 1) == '*' {
      CommentExt(a, b, 2);
    } else if BlobEnd(a).None? && Quote(a[0]) {
      QuoteExt(a, b, 1, a[0]);
    }
  }

  // ---------------------------------------------------------------- layout

  lemma {:induction false} RunTail(s: string, i: nat, f: char -> bool)
    requires s != []
    ensures Run(s, i + 1, f) == Run(s[1..], i, f) + 1
    decreases |s| - i
  {
    if i < |s[1..]| && f(s[1..][i]) { RunTail(s, i + 1, f); }
  }

  /** A leading layout character never matters. */
  lemma LayoutDropped(s: string)
    requires s != [] && Layout(s[0])
    ensures Lex(s) == Lex(s[1..])
  {
    var n := Run(s, 1, Layout);
    RunTail(s, 0, Layout);
    if |s| > 1 && Layout(s[1]) {
      assert Run(s[1..], 0, Layout) == Run(s[1..], 1, Layout);
      assert s[1..][n - 1..] == s[n..];
    } else {
      assert n == 1;
    }
  }

  // ---------------------------------------------------------------- composition

  lemma ConcatPrepend(token: string, r: Option<seq<string>>, rest: Option<seq<string>>)
    ensures Prepend(token, Concat(r, rest)) == Concat(Prepend(token, r), rest)
  {
    if r.Some? && rest.Some? { assert [token] + (r.value + rest.value) == ([token] + r.value) + rest.value; }
  }

  lemma NothingBefore(r: Option<seq<string>>)
    ensures Concat(Some([]), r) == r
  {
    if r.Some? { assert [] + r.value == r.value; }
  }

  lemma LastComment(a: string)
    requires a != [] && At(a, 0) == '-' && At(a, 1) == '-' && LineEnd(a, 2).None?
    ensures Lex(a) == Some([])
  {
    assert a[|a|..] == [];
  }

  /** Tokenizing is compositional over lines: if `a` can be tokenized, the tokens of `a`, a line feed and `b` are those
      of `a` followed by those of `b`, and it fails exactly if `b` does. */
  lemma {:induction false} LexAppend(a: string, b: string)
    requires Lex(a).Some?
    ensures Lex(a + "\n" + b) == Concat(Lex(a), Lex(b))
    decreases |a|
  {
    hide HeadOf;
    var t := a + "\n" + b;
    if a == [] {
      LayoutDropped(t);
      assert t[1..] == b;
      NothingBefore(Lex(b));
    } else if Layout(a[0]) {
      LayoutDropped(a);
      LayoutDropped(t);
      LexAppend(a[1..], b);
      assert t[1..] == a[1..] + "\n" + b;
    } else {
      HeadExt(a, b);
      if At(a, 0) == '-' && At(a, 1) == '-' && LineEnd(a, 2).None? {
        LastComment(a);
        assert t[|a| + 1..] == b;
        NothingBefore(Lex(b));
      } else {
        var h := HeadOf(a);
        assert t[h.n..] == a[h.n..] + "\n" + b && t[..h.n] == a[..h.n];
        LexAppend(a[h.n..], b);
        if h.Token? { ConcatPrepend(a[..h.n], Lex(a[h.n..]), Lex(b)); }
      }
    }
  }

  // ---------------------------------------------------------------- printing tokens and reading them back

  /** A text that is exactly one token. */
  predicate IsToken(t: string) { t != [] && HeadOf(t) == Token(|t|) }

  function Join(tokens: seq<string>): string {
    if tokens == [] then "" else tokens[0] + " " + Join(tokens[1..])
  }

  lemma {:induction false} LexedTokens(s: string)
    requires Lex(s).Some?
    ensures forall i :: 0 <= i < |Lex(s).value| ==> IsToken(Lex(s).value[i])
    decreases |s|
  {
    if s != [] {
      var h := HeadOf(s);
      LexedTokens(s[h.n..]);
      if h.Token? {
        TokenCut(s, s[..h.n], h.n);
        assert Lex(s).value == [s[..h.n]] + Lex(s[h.n..]).value;
      }
    }
  }

  /** A token followed by layout, a comment or the end is read back verbatim. */
  lemma TokenThen(token: string, r: string)
    requires IsToken(token) && Ends(token, At(r, 0))
    ensures Lex(token + r) == Prepend(token, Lex(r))
  {
    var t := token + r;
    assert t[..|token|] == token && t[|token|..] == r && token[..|token|] == token;
    TokenCut(token, t, |token|);
  }

  lemma {:induction false} JoinReads(tokens: seq<string>)
    requires forall i :: 0 <= i < |tokens| ==> IsToken(tokens[i])
    ensures Lex(Join(tokens)) == Some(tokens)
  {
    if tokens != [] {
      JoinReads(tokens[1..]);
      var rest := " " + Join(tokens[1..]);
      assert Join(tokens) == tokens[0] + rest;
      TokenThen(tokens[0], rest);
      LayoutDropped(rest);
      assert rest[1..] == Join(tokens[1..]);
      assert [tokens[0]] + tokens[1..] == tokens;
    }
  }

  /** Round trip: printing the tokens of any text with single spaces and reading them back gives the same tokens. */
  lemma RoundTrip(s: string)
    requires Lex(s).Some?
    ensures Lex(Join(Lex(s).value)) == Lex(s)
  {
    LexedTokens(s);
    JoinReads(Lex(s).value);
  }

  /** A stretch of layout and comments. Only if it is `last` in the text, the end may close a line comment. */
  predicate Skips(l: string, last: bool)
    decreases |l|
  {
    l == [] || (HeadOf(l).Skip? && (!last && At(l, 0) == '-' ==> l[HeadOf(l).n - 1] == '\n')
      && Skips(l[HeadOf(l).n..], last))
  }

  /** A stretch of layout and closed comments: reading it has no effect on what follows. */
  predicate Blank(l: string) { Skips(l, false) }

  /** A stretch of layout and comments that ends the text. */
  predicate Ending(l: string) { Skips(l, true) }

  lemma {:induction false} LineStays(l: string, r: string, i: nat)
    requires LineEnd(l, i).Some?
    ensures LineEnd(l + r, i) == LineEnd(l, i)
    decreases |l| - i
  {
    if l[i] != '\n' { LineStays(l, r, i + 1); }
  }

  lemma {:induction false} CommentStays(l: string, r: string, i: nat)
    requires CommentEnd(l, i).Some?
    ensures CommentEnd(l + r, i) == CommentEnd(l, i)
    decreases |l| - i
  {
    if !(l[i] == '*' && l[i + 1] == '/') { CommentStays(l, r, i + 1); }
  }

  lemma {:induction false} LineLast(l: string, i: nat)
    requires i <= |l| && LineEnd(l, i).None? && |l| > i
    ensures l[|l| - 1] != '\n'
    decreases |l| - i
  {
    if i + 1 < |l| { LineLast(l, i + 1); }
  }

  lemma {:induction false} RestBlank(l: string)
    requires Blank(l) && l != [] && Layout(l[0])
    ensures Blank(l[1..])
  {
    var n := Run(l, 1, Layout);
    RunTail(l, 0, Layout);
    if |l| > 1 && Layout(l[1]) {
      assert l[1..][n - 1..] == l[n..];
    } else {
      assert n == 1;
    }
  }

  lemma CommentHead(l: string, r: string)
    requires Blank(l) && l != [] && !Layout(l[0])
    ensures HeadOf(l + r) == HeadOf(l) && HeadOf(l).Skip? && Blank(l[HeadOf(l).n..])
  {
    if At(l, 0) == '-' {
      if LineEnd(l, 2).None? && |l| > 2 { LineLast(l, 2); }
      LineStays(l, r, 2);
    } else {
      CommentStays(l, r, 2);
    }
  }

  lemma {:induction false} BlankSkipped(l: string, r: string)
    requires Blank(l)
    ensures Lex(l + r) == Lex(r)
    decreases |l|
  {
    hide HeadOf, Skips;
    if l == [] {
      assert l + r == r;
    } else if Layout(l[0]) {
      LayoutDropped(l + r);
      assert (l + r)[1..] == l[1..] + r;
      RestBlank(l);
      BlankSkipped(l[1..], r);
    } else {
      CommentHead(l, r);
      var n := HeadOf(l).n;
      assert (l + r)[n..] == l[n..] + r;
      BlankSkipped(l[n..], r);
    }
  }

  lemma {:induction false} EndingRead(l: string)
    requires Ending(l)
    ensures Lex(l) == Some([])
    decreases |l|
  {
    if l != [] { EndingRead(l[HeadOf(l).n..]); }
  }

  // ---------------------------------------------------------------- what stands between tokens

  /** A gap keeps a token apart from what follows, unless it is a line comment directly after a minus sign. */
  predicate Separates(token: string, gap: string) { token == "-" ==> At(gap, 0) != '-' }

  lemma SkipsStart(gap: string, last: bool)
    requires Skips(gap, last) && gap != []
    ensures Layout(gap[0]) || gap[0] == '/' || (gap[0] == '-' && At(gap, 1) == '-')
  {
  }

  /** Reading a token and its gap leaves the token and what follows the gap. */
  lemma GapDropped(token: string, gap: string, r: string)
    requires IsToken(token) && Separates(token, gap) && gap != [] && Blank(gap)
    ensures Lex(token + gap + r) == Prepend(token, Lex(r))
  {
    SkipsStart(gap, false);
    assert token + gap + r == token + (gap + r) && At(gap + r, 0) == gap[0];
    hide HeadOf, Skips;
    TokenThen(token, gap + r);
    BlankSkipped(gap, r);
  }

  lemma LastGapDropped(token: string, gap: string)
    requires IsToken(token) && Separates(token, gap) && Ending(gap)
    ensures Lex(token + gap) == Some([token])
  {
    if gap != [] { SkipsStart(gap, true); }
    hide HeadOf, Skips;
    TokenThen(token, gap);
    EndingRead(gap);
    assert [token] + [] == [token];
  }

  lemma {:induction false} LineShift(l: string, i: nat)
    ensures LineEnd("-" + l, i + 1) == if LineEnd(l, i).Some? then Some(LineEnd(l, i).value + 1) else None
    decreases |l| - i
  {
    if i < |l| {
      assert ("-" + l)[i + 1] == l[i];
      LineShift(l, i + 1);
    }
  }

  /** A minus sign directly before a line comment becomes part of it. */
  lemma MinusHead(l: string)
    requires At(l, 0) == '-' && At(l, 1) == '-'
    ensures HeadOf(l).Skip? && HeadOf("-" + l) == Skip(HeadOf(l).n + 1)
            && ("-" + l)[HeadOf(l).n + 1..] == l[HeadOf(l).n..]
  {
    LineShift(l, 1);
    assert LineEnd(l, 1) == LineEnd(l, 2);
    var s := "-" + l;
    assert At(s, 0) == '-' && At(s, 1) == '-';
  }

  lemma MinusSwallowed(gap: string, r: string)
    requires Blank(gap) && At(gap, 0) == '-'
    ensures Lex("-" + gap + r) == Lex(r)
  {
    SkipsStart(gap, false);
    CommentHead(gap, r);
    var l := gap + r;
    assert At(l, 0) == '-' && At(l, 1) == '-' && "-" + gap + r == "-" + l;
    MinusHead(l);
    hide HeadOf, Skips;
    BlankSkipped(gap, r);
  }

  lemma LastMinusSwallowed(gap: string)
    requires Ending(gap) && At(gap, 0) == '-'
    ensures Lex("-" + gap) == Some([])
  {
    SkipsStart(gap, true);
    MinusHead(gap);
    EndingRead(gap);
  }

  /** Exactly when a gap keeps a token apart from the text after it, whatever that text is. */
  lemma SeparatesExactly(token: string, gap: string, r: string)
    requires IsToken(token) && gap != [] && Blank(gap) && Lex(r).Some?
    ensures Lex(token + gap + r) == Prepend(token, Lex(r)) <==> Separates(token, gap)
  {
    hide IsToken, Skips, Lex;
    if Separates(token, gap) {
      GapDropped(token, gap, r);
    } else {
      MinusSwallowed(gap, r);
      assert |[token] + Lex(r).value| != |Lex(r).value|;
    }
  }

  /** Tokens, each followed by its own gap. */
  function Weave(tokens: seq<string>, gaps: seq<string>): string
    requires |gaps| == |tokens|
  {
    if tokens == [] then "" else tokens[0] + gaps[0] + Weave(tokens[1..], gaps[1..])
  }

  /** A gap after every token: layout and closed comments between two tokens, any of both or nothing after the last. */
  predicate Gaps(gaps: seq<string>) {
    && (forall i :: 0 <= i < |gaps| - 1 ==> gaps[i] != [] && Blank(gaps[i]))
    && (gaps != [] ==> Ending(gaps[|gaps| - 1]))
  }

  /** The tokens that their gaps keep apart from what follows. */
  function Kept(tokens: seq<string>, gaps: seq<string>): (kept: seq<string>)
    requires |gaps| == |tokens|
    ensures |kept| <= |tokens|
    ensures kept == tokens <==> forall i :: 0 <= i < |tokens| ==> Separates(tokens[i], gaps[i])
  {
    if tokens == [] then []
    else
      assert forall i :: 0 < i < |tokens| ==> tokens[i] == tokens[1..][i - 1] && gaps[i] == gaps[1..][i - 1];
      var rest := Kept(tokens[1..], gaps[1..]);
      if Separates(tokens[0], gaps[0]) then
        assert [tokens[0]] + tokens[1..] == tokens;
        assert [tokens[0]] + rest == tokens ==> rest == ([tokens[0]] + rest)[1..] == tokens[1..];
        [tokens[0]] + rest
      else rest
  }

  lemma NextGaps(gaps: seq<string>)
    requires Gaps(gaps) && |gaps| > 1
    ensures Gaps(gaps[1..])
  {
    hide Skips;
    assert gaps[1..][|gaps| - 2] == gaps[|gaps| - 1];
  }

  /** However tokens are laid out, exactly those that their gaps keep apart are read. */
  lemma {:induction false} WeaveRead(tokens: seq<string>, gaps: seq<string>)
    requires |gaps| == |tokens| && (forall i :: 0 <= i < |tokens| ==> IsToken(tokens[i])) && Gaps(gaps)
    ensures Lex(Weave(tokens, gaps)) == Some(Kept(tokens, gaps))
    decreases |tokens|
  {
    hide IsToken, HeadOf, Skips;
    if |tokens| == 1 {
      assert Weave(tokens, gaps) == tokens[0] + gaps[0];
      assert Kept(tokens, gaps) == if Separates(tokens[0], gaps[0]) then [tokens[0]] else [];
      if Separates(tokens[0], gaps[0]) { LastGapDropped(tokens[0], gaps[0]); } else { LastMinusSwallowed(gaps[0]); }
    } else if |tokens| > 1 {
      var rest := Weave(tokens[1..], gaps[1..]);
      NextGaps(gaps);
      WeaveRead(tokens[1..], gaps[1..]);
      if Separates(tokens[0], gaps[0]) { GapDropped(tokens[0], gaps[0], rest); } else { MinusSwallowed(gaps[0], rest); }
    }
  }

  /** Layout and comments at token boundaries matter in one case only: a text of tokens with gaps before, between and
      after them reads as these tokens if and only if no line comment stands directly after a minus sign. */
  lemma LayoutIrrelevant(lead: string, tokens: seq<string>, gaps: seq<string>)
    requires |gaps| == |tokens| && (forall i :: 0 <= i < |tokens| ==> IsToken(tokens[i])) && Blank(lead) && Gaps(gaps)
    ensures Lex(lead + Weave(tokens, gaps)) == Some(tokens)
            <==> forall i :: 0 <= i < |tokens| ==> Separates(tokens[i], gaps[i])
  {
    hide IsToken, HeadOf, Skips, Separates, Gaps;
    BlankSkipped(lead, Weave(tokens, gaps));
    WeaveRead(tokens, gaps);
  }

  lemma OneRead()
    ensures IsToken("1") && IsToken("-") && Lex("1") == Some(["1"])
  {
    assert HeadOf("1") == Token(1) && HeadOf("-") == Token(1);
    LastGapDropped("1", "");
    assert "1" + "" == "1";
  }

  lemma LineBlank()
    ensures Blank("--x\n") && Blank(" --x\n")
  {
    var l := "--x\n";
    assert LineEnd(l, 3) == Some(3) && LineEnd(l, 2) == Some(3);
    assert HeadOf(l) == Skip(4) && l[4..] == [];
    LayoutBlank(' ', l, false);
    assert [' '] + l == " --x\n";
  }

  /** A minus sign, a line comment directly after it, and a number: the minus sign is lost. */
  lemma CommentedMinus()
    ensures Lex("---x\n1") == Some(["1"]) && Lex("- --x\n1") == Some(["-", "1"])
  {
    OneRead();
    LineBlank();
    hide Lex, IsToken, Skips;
    MinusSwallowed("--x\n", "1");
    GapDropped("-", " --x\n", "1");
    assert "-" + "--x\n" + "1" == "---x\n1" && "-" + " --x\n" + "1" == "- --x\n1" && ["-"] + ["1"] == ["-", "1"];
  }

  // ---------------------------------------------------------------- nothing else is dropped

  /** A layout character before a stretch of layout and comments continues it. */
  lemma LayoutBlank(c: char, l: string, last: bool)
    requires Layout(c) && Skips(l, last)
    ensures Skips([c] + l, last)
  {
    var s := [c] + l;
    assert s[1..] == l;
    RunTail(s, 0, Layout);
    if l != [] && Layout(l[0]) {
      assert Run(l, 0, Layout) == Run(l, 1, Layout);
      assert s[HeadOf(s).n..] == l[HeadOf(l).n..];
    } else {
      assert HeadOf(s) == Skip(1);
    }
  }

  lemma {:induction false} CommentCut(s: string, t: string, n: nat, i: nat)
    requires n <= |s| && n <= |t| && s[..n] == t[..n] && CommentEnd(s, i) == Some(n)
    ensures CommentEnd(t, i) == Some(n)
    decreases |s| - i
  {
    assert s[..n][i] == t[..n][i] && s[..n][i + 1] == t[..n][i + 1];
    if !(s[i] == '*' && s[i + 1] == '/') { CommentCut(s, t, n, i + 1); }
  }

  lemma {:induction false} LineCut(s: string, t: string, n: nat, i: nat)
    requires n < |s| && n < |t| && s[..n + 1] == t[..n + 1] && LineEnd(s, i) == Some(n)
    ensures LineEnd(t, i) == Some(n)
    decreases |s| - i
  {
    assert s[..n + 1][i] == t[..n + 1][i];
    if s[i] != '\n' { LineCut(s, t, n, i + 1); }
  }

  /** So does a closed comment. */
  lemma CommentBlank(s: string, n: nat, l: string, last: bool)
    requires s != [] && !Layout(s[0]) && HeadOf(s) == Skip(n) && (At(s, 0) == '-' ==> s[n - 1] == '\n')
             && Skips(l, last)
    ensures Skips(s[..n] + l, last)
  {
    var t := s[..n] + l;
    assert t[..n] == s[..n] && t[n..] == l && n >= 2 && t[0] == s[0] && t[1] == s[1];
    if At(s, 0) == '-' {
      if LineEnd(s, 2).None? {
        if |s| > 2 { LineLast(s, 2); }
      }
      LineCut(s, t, n - 1, 2);
    } else {
      CommentCut(s, t, n, 2);
    }
  }

  /** Gaps before, between and after the tokens of a text, any of which may be empty. */
  predicate Spaces(lead: string, gaps: seq<string>) {
    if gaps == [] then Ending(lead)
    else Blank(lead) && (forall i :: 0 <= i < |gaps| - 1 ==> Blank(gaps[i])) && Ending(gaps[|gaps| - 1])
  }

  /** The text is these tokens with these gaps, and nothing else. */
  ghost predicate Made(s: string, tokens: seq<string>, lead: string, gaps: seq<string>) {
    |gaps| == |tokens| && s == lead + Weave(tokens, gaps) && Spaces(lead, gaps)
  }

  lemma MadeLonger(s: string, tokens: seq<string>, lead: string, gaps: seq<string>, pre: string)
    requires Made(s, tokens, lead, gaps)
    requires Skips(pre + lead, gaps == [])
    ensures Made(pre + s, tokens, pre + lead, gaps)
  {
    hide Skips;
    assert pre + (lead + Weave(tokens, gaps)) == (pre + lead) + Weave(tokens, gaps);
  }

  lemma MadeToken(s: string, tokens: seq<string>, lead: string, gaps: seq<string>, token: string)
    requires Made(s, tokens, lead, gaps)
    ensures Made(token + s, [token] + tokens, "", [lead] + gaps)
  {
    var tokens', gaps' := [token] + tokens, [lead] + gaps;
    assert tokens'[1..] == tokens && gaps'[1..] == gaps;
    assert token + (lead + Weave(tokens, gaps)) == "" + (token + lead + Weave(tokens, gaps));
    assert Blank("");
    hide Skips;
    assert forall i :: 0 < i < |gaps'| ==> gaps'[i] == gaps[i - 1];
  }

  /** A line comment that the end of the text closes. */
  lemma OpenComment(s: string)
    requires s != [] && HeadOf(s).Skip? && At(s, 0) == '-' && s[HeadOf(s).n - 1] != '\n'
    ensures Lex(s) == Some([]) && Made(s, [], s, [])
  {
    assert HeadOf(s) == Skip(|s|) && s[|s|..] == [] && s + "" == s;
  }

  /** Only layout and comments are dropped: every text that tokenizes is its tokens with gaps of layout and comments. */
  lemma {:induction false} OnlyLayoutDropped(s: string)
    requires Lex(s).Some?
    ensures exists lead, gaps :: Made(s, Lex(s).value, lead, gaps)
    decreases |s|
  {
    assert Made("", [], "", []);
    hide HeadOf, Skips, Made, Layout;
    if s == [] {
    } else if Layout(s[0]) {
      LayoutDropped(s);
      OnlyLayoutDropped(s[1..]);
      var lead, gaps :| Made(s[1..], Lex(s).value, lead, gaps);
      assert s == [s[0]] + s[1..];
      LayoutBlank(s[0], lead, gaps == []);
      MadeLonger(s[1..], Lex(s).value, lead, gaps, [s[0]]);
    } else {
      var n := HeadOf(s).n;
      if HeadOf(s).Skip? && At(s, 0) == '-' && s[n - 1] != '\n' {
        OpenComment(s);
      } else {
        OnlyLayoutDropped(s[n..]);
        var tokens := Lex(s[n..]).value;
        var lead, gaps :| Made(s[n..], tokens, lead, gaps);
        assert s == s[..n] + s[n..];
        if HeadOf(s).Skip? {
          CommentBlank(s, n, lead, gaps == []);
          MadeLonger(s[n..], tokens, lead, gaps, s[..n]);
        } else {
          MadeToken(s[n..], tokens, lead, gaps, s[..n]);
        }
      }
    }
  }

  // ---------------------------------------------------------------- quoted bytes survive

  function Doubled(body: string, q: char): string {
    if body == [] then "" else (if body[0] == q then [q, q] else [body[0]]) + Doubled(body[1..], q)
  }

  /** A body as SQL writes it between quotes. */
  function Quoted(body: string, q: char): string { [q] + Doubled(body, q) + [q] }

  lemma {:induction false} DoubledEnds(pre: string, body: string, q: char)
    requires q == '\'' || q == '"' || q == '`'
    ensures QuoteEnd(pre + Doubled(body, q) + [q], |pre|, q) == Some(|pre| + |Doubled(body, q)| + 1)
    decreases |body|
  {
    var s := pre + Doubled(body, q) + [q];
    if body != [] {
      var head: string := if body[0] == q then [q, q] else [body[0]];
      assert s == (pre + head) + Doubled(body[1..], q) + [q];
      assert s[|pre|] == head[0];
      if body[0] == q { assert s[|pre| + 1] == q; }
      DoubledEnds(pre + head, body[1..], q);
    } else {
      assert s == pre + [q];
    }
  }

  /** Any bytes, quoted by doubling the quote, form exactly one token and come back verbatim. */
  lemma QuotedIsOneToken(body: string, q: char)
    requires q == '\'' || q == '"' || q == '`'
    ensures IsToken(Quoted(body, q)) && Lex(Quoted(body, q)) == Some([Quoted(body, q)])
  {
    DoubledEnds([q], body, q);
    TokenThen(Quoted(body, q), "");
    assert Quoted(body, q) + "" == Quoted(body, q) && [Quoted(body, q)] + [] == [Quoted(body, q)];
    assert Lex("") == Some([]);
  }

  /** Bracket quotes have no escape: a body without a closing bracket is one token. */
  lemma {:induction false} BracketEnds(pre: string, body: string)
    requires ']' !in body
    ensures QuoteEnd(pre + body + "]", |pre|, '[') == Some(|pre| + |body| + 1)
    decreases |body|
  {
    var s := pre + body + "]";
    if body != [] {
      assert s == (pre + [body[0]]) + body[1..] + "]" && s[|pre|] == body[0];
      BracketEnds(pre + [body[0]], body[1..]);
    } else {
      assert s == pre + "]";
    }
  }

  lemma BracketedIsOneToken(body: string)
    requires ']' !in body
    ensures IsToken("[" + body + "]")
  {
    BracketEnds("[", body);
  }

  /** What a doubled body stands for. */
  function Undoubled(s: string, q: char): string {
    if s == [] then "" else [s[0]] + Undoubled(if s[0] == q && |s| > 1 then s[2..] else s[1..], q)
  }

  /** Quoting loses nothing: the body can be read off the token, so different bodies give different tokens. */
  lemma {:induction false} QuotingIsInjective(body: string, q: char)
    ensures Undoubled(Doubled(body, q), q) == body
  {
    if body != [] {
      QuotingIsInjective(body[1..], q);
      var d := Doubled(body, q);
      if body[0] == q { assert d[2..] == Doubled(body[1..], q); } else { assert d[1..] == Doubled(body[1..], q); }
    }
  }
}
