/** The conservative SQL tokenizer of scripts/production-baseline.ts: layout and comments are dropped, quoted bytes are
    never touched, and token boundaries stay explicit. */
module SqlLexer {
  import opened Wrappers

  // ---------------------------------------------------------------- character classes

  predicate Layout(c: char) { c == ' ' || c == '\t' || c == '\r' || c == '\n' || c == '\U{0C}' }

  predicate Digit(c: char) { '0' <= c <= '9' }

  predicate HexDigit(c: char) { Digit(c) || 'a' <= c <= 'f' || 'A' <= c <= 'F' }

  predicate IdentStart(c: char) { 'a' <= c <= 'z' || 'A' <= c <= 'Z' || c == '_' || c >= '\U{80}' }

  predicate IdentPart(c: char) { IdentStart(c) || Digit(c) || c == '$' }

  predicate Quote(c: char) { c == '\'' || c == '"' || c == '`' || c == '[' }

  function Closing(quote: char): char { if quote == '[' then ']' else quote }

  /** The character at position i. The end of the text reads as a line feed, which ends every token. */
  function At(s: string, i: nat): char { if i < |s| then s[i] else '\n' }

  // ---------------------------------------------------------------- matchers

  /** `f*` from position i. */
  function Run(s: string, i: nat, f: char -> bool): (j: nat)
    ensures j >= i && (i <= |s| ==> j <= |s|)
    ensures forall k :: i <= k < j ==> k < |s| && f(s[k])
    ensures j < |s| ==> !f(s[j])
    decreases |s| - i
  {
    if i < |s| && f(s[i]) then Run(s, i + 1, f) else i
  }

  /** `(?:_?d)*` from position i, for a class of digits. */
  function Digits(s: string, i: nat, f: char -> bool): (j: nat)
    requires !f('\n')
    ensures j >= i && (i <= |s| ==> j <= |s|)
    decreases |s| - i
  {
    if i < |s| && f(s[i]) then Digits(s, i + 1, f)
    else if i < |s| && s[i] == '_' && f(At(s, i + 1)) then Digits(s, i + 2, f)
    else i
  }

  /** An exponent at position k, if a complete one is there. */
  function Exponent(s: string, k: nat): (j: nat)
    ensures j >= k && (k <= |s| ==> j <= |s|)
  {
    if At(s, k) == 'e' || At(s, k) == 'E' then
      var j := if At(s, k + 1) == '+' || At(s, k + 1) == '-' then k + 2 else k + 1;
      if Digit(At(s, j)) then Digits(s, j + 1, Digit) else k
    else
      k
  }

  /** A hexadecimal or decimal number; underscores only between digits. */
  function NumberEnd(s: string): Option<nat> {
    if At(s, 0) == '0' && (At(s, 1) == 'x' || At(s, 1) == 'X') && HexDigit(At(s, 2)) then Some(Digits(s, 3, HexDigit))
    else if Digit(At(s, 0)) then
      var j := Digits(s, 1, Digit);
      var k := if At(s, j) != '.' then j else if Digit(At(s, j + 1)) then Digits(s, j + 2, Digit) else j + 1;
      Some(Exponent(s, k))
    else if At(s, 0) == '.' && Digit(At(s, 1)) then Some(Exponent(s, Digits(s, 2, Digit)))
    else None
  }

  predicate Single(c: char) { c in "(),.;+*/%<>=~&|!-" }

  /** Operators and punctuation, longest first. */
  function OperatorEnd(s: string): Option<nat> {
    var a, b, c := At(s, 0), At(s, 1), At(s, 2);
    if a == '-' && b == '>' then Some(if c == '>' then 3 else 2)
    else if ((a == '<' || a == '>' || a == '!' || a == '=') && b == '=') || (a == '<' && b == '>')
      || (a == '|' && b == '|')
            || (a == '<' && b == '<') || (a == '>' && b == '>') then Some(2)
    else if Single(a) then Some(1)
    else None
  }

  function TokenEnd(s: string): Option<nat> {
    if IdentStart(At(s, 0)) then Some(Run(s, 1, IdentPart))
    else if NumberEnd(s).Some? then NumberEnd(s)
    else OperatorEnd(s)
  }

  /** A blob literal is one token: X'AB' must differ from X 'AB'. */
  function BlobEnd(s: string): Option<nat> {
    if (At(s, 0) == 'x' || At(s, 0) == 'X') && At(s, 1) == '\''
      && At(s, Run(s, 2, HexDigit)) == '\'' then Some(Run(s, 2, HexDigit) + 1)
    else None
  }

  /** End of the quoted text whose body starts at i; a doubled quote stands for itself, except between brackets. */
  function QuoteEnd(s: string, i: nat, quote: char): (r: Option<nat>)
    ensures r.Some? ==> i < r.value <= |s|
    decreases |s| - i
  {
    if i >= |s| then None
    else if s[i] != Closing(quote) then QuoteEnd(s, i + 1, quote)
    else if quote != '[' && i + 1 < |s| && s[i + 1] == Closing(quote) then QuoteEnd(s, i + 2, quote)
    else Some(i + 1)
  }

  /** indexOf("\n", i) */
  function LineEnd(s: string, i: nat): (r: Option<nat>)
    ensures r.Some? ==> i <= r.value < |s| && s[r.value] == '\n'
    decreases |s| - i
  {
    if i >= |s| then None else if s[i] == '\n' then Some(i) else LineEnd(s, i + 1)
  }

  /** End of a block comment: just after the first closing mark from i on. */
  function CommentEnd(s: string, i: nat): (r: Option<nat>)
    ensures r.Some? ==> i + 2 <= r.value <= |s|
    decreases |s| - i
  {
    if i + 1 >= |s| then None else if s[i] == '*' && s[i + 1] == '/' then Some(i + 2) else CommentEnd(s, i + 1)
  }

  /** What stands at the head of a text: something to skip, a token, or an error. */
  datatype Head = Skip(n: nat) | Token(n: nat) | Bad

  function HeadOf(s: string): (h: Head)
    requires s != []
    ensures !h.Bad? ==> 0 < h.n <= |s|
  {
    if Layout(s[0]) then Skip(Run(s, 1, Layout))
    else if At(s, 0) == '-' && At(s, 1) == '-' then Skip(if LineEnd(s, 2).Some? then LineEnd(s, 2).value + 1 else |s|)
    else if At(s, 0) == '/' && At(s, 1) == '*' then (if CommentEnd(s, 2).Some? then Skip(CommentEnd(s, 2).value)
      else Bad)
    else if BlobEnd(s).Some? then Token(BlobEnd(s).value)
    else if Quote(s[0]) then (if QuoteEnd(s, 1, s[0]).Some? then Token(QuoteEnd(s, 1, s[0]).value) else Bad)
    else if TokenEnd(s).Some? then Token(TokenEnd(s).value)
    else Bad
  }

  /** The tokens of a text, or None where the tokenizer fails. */
  function Lex(s: string): Option<seq<string>>
    decreases |s|
  {
    if s == [] then Some([]) else
    var h := HeadOf(s);
    if h.Bad? then None
    else if h.Skip? then Lex(s[h.n..])
    else Prepend(s[..h.n], Lex(s[h.n..]))
  }

  function Prepend(t: string, r: Option<seq<string>>): Option<seq<string>> { if r.Some? then Some([t] + r.value)
                   else None }

  function Concat(a: Option<seq<string>>, b: Option<seq<string>>): Option<seq<string>> {
    if a.Some? && b.Some? then Some(a.value + b.value) else None
  }
}
