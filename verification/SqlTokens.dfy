/** The token language of the SQL tokenizer, written down apart from the scanner: which texts are tokens, what may stand
    between them, and that a text is read as its longest tokens. */
module SqlTokens {
  import opened Wrappers
  import opened SqlLexer
  import SqlCanonical

  // ---------------------------------------------------------------- the language

  const DIGITS: set<char> := {'0', '1', '2', '3', '4', '5', '6', '7', '8', '9'}
  const HEX_DIGITS: set<char> := DIGITS + {'a', 'b', 'c', 'd', 'e', 'f', 'A', 'B', 'C', 'D', 'E', 'F'}
  const LAYOUT: set<char> := {' ', '\t', '\r', '\n', '\U{0C}'}

  const OPERATORS: set<string> := {
    "->>", "->", "<=", ">=", "!=", "==", "<>", "||", "<<", ">>",
    "(", ")", ",", ".", ";", "+", "*", "/", "%", "<", ">", "=", "~", "&", "|", "!", "-"
  }

  predicate NameStart(c: char) { 'a' <= c <= 'z' || 'A' <= c <= 'Z' || c == '_' || c > '\U{7F}' }

  predicate NamePart(c: char) { NameStart(c) || c in DIGITS || c == '$' }

  /** An identifier or keyword. */
  ghost predicate Name(t: string) {
    t != "" && NameStart(t[0]) && forall i :: 0 < i < |t| ==> NamePart(t[i])
  }

  ghost predicate InGroup(t: string, i: nat, digits: set<char>)
    requires i < |t|
  {
    t[i] in digits || (t[i] == '_' && i + 1 < |t| && t[i + 1] in digits)
  }

  /** Digits, with single underscores only before a digit. */
  ghost predicate Grouped(t: string, digits: set<char>) {
    forall i :: 0 <= i < |t| ==> InGroup(t, i, digits)
  }

  /** A digit and then grouped digits. */
  ghost predicate DigitRun(t: string, digits: set<char>) {
    t != "" && t[0] in digits && Grouped(t, digits)
  }

  ghost predicate HexNumber(t: string) {
    |t| >= 3 && t[0] == '0' && t[1] in {'x', 'X'} && DigitRun(t[2..], HEX_DIGITS)
  }

  /** Digits with a point at k: something before it or behind it. */
  ghost predicate PointAt(t: string, k: nat) {
    && k < |t| && t[k] == '.' && |t| > 1
    && (k > 0 ==> DigitRun(t[..k], DIGITS)) && (k + 1 < |t| ==> DigitRun(t[k + 1..], DIGITS))
  }

  ghost predicate Mantissa(t: string) { DigitRun(t, DIGITS) || exists k: nat :: PointAt(t, k) }

  ghost predicate Power(t: string) {
    |t| >= 2 && t[0] in {'e', 'E'} && (DigitRun(t[1..], DIGITS) || (t[1] in {'+', '-'} && DigitRun(t[2..], DIGITS)))
  }

  ghost predicate PowerAt(t: string, k: nat) { k < |t| && Mantissa(t[..k]) && Power(t[k..]) }

  ghost predicate Decimal(t: string) { Mantissa(t) || exists k: nat :: PowerAt(t, k) }

  /** A blob literal: hexadecimal digits between apostrophes behind an x. */
  ghost predicate Blob(t: string) {
    |t| >= 3 && t[0] in {'x', 'X'} && t[1] == '\'' && t[|t| - 1] == '\''
    && forall i :: 2 <= i < |t| - 1 ==> t[i] in HEX_DIGITS
  }

  /** Every q stands twice. */
  ghost predicate Paired(body: string, q: char) {
    body == "" || (body[0] != q && Paired(body[1..], q))
    || (|body| >= 2 && body[0] == q && body[1] == q && Paired(body[2..], q))
  }

  ghost predicate QuotedText(t: string) {
    |t| >= 2 && t[0] in {'\'', '"', '`'} && t[|t| - 1] == t[0] && Paired(t[1..|t| - 1], t[0])
  }

  ghost predicate BracketedText(t: string) {
    |t| >= 2 && t[0] == '[' && t[|t| - 1] == ']' && forall i :: 0 < i < |t| - 1 ==> t[i] != ']'
  }

  /** The tokens. */
  ghost predicate TokenText(t: string) {
    Name(t) || HexNumber(t) || Decimal(t) || t in OPERATORS || Blob(t) || QuotedText(t) || BracketedText(t)
  }

  ghost predicate LineComment(s: string) { |s| >= 2 && s[0] == '-' && s[1] == '-' }

  ghost predicate BlockComment(s: string) { |s| >= 2 && s[0] == '/' && s[1] == '*' }

  /** The first n characters are the longest token that the text starts with; a quoted token is not continued by its own
      quote. */
  ghost predicate TokenHere(s: string, n: nat) {
    && 0 < n <= |s| && TokenText(s[..n]) && !LineComment(s) && !BlockComment(s)
    && (forall m :: n < m <= |s| ==> !TokenText(s[..m]))
    && (s[0] in {'\'', '"', '`'} && n < |s| ==> s[n] != s[0])
  }

  /** The first n characters are to be skipped: all leading layout, a line comment with its line end, or a block comment
      up to its first closing mark. */
  ghost predicate SkipHere(s: string, n: nat) {
    || (0 < n <= |s| && (forall i :: 0 <= i < n ==> s[i] in LAYOUT) && (n < |s| ==> s[n] !in LAYOUT))
    || (LineComment(s) && 2 <= n <= |s| && (forall i :: 2 <= i < n - 1 ==> s[i] != '\n')
        && ((n > 2 && s[n - 1] == '\n') || (n == |s| && (n > 2 ==> s[n - 1] != '\n'))))
    || (BlockComment(s) && 4 <= n <= |s| && s[n - 2] == '*' && s[n - 1] == '/'
        && forall i :: 2 <= i < n - 2 ==> !(s[i] == '*' && s[i + 1] == '/'))
  }

  /** The text consists of these tokens, each as long as possible, with layout and comments around them. */
  ghost predicate Reads(s: string, tokens: seq<string>)
    decreases |s|
  {
    || (s == "" && tokens == [])
    || (exists n: nat :: SkipHere(s, n) && 0 < n <= |s| && Reads(s[n..], tokens))
    || (exists n: nat :: TokenHere(s, n) && tokens != [] && tokens[0] == s[..n] && Reads(s[n..], tokens[1..]))
  }

  // ---------------------------------------------------------------- classes

  lemma Classes(c: char)
    ensures Digit(c) <==> c in DIGITS
    ensures HexDigit(c) <==> c in HEX_DIGITS
    ensures IdentStart(c) <==> NameStart(c)
    ensures IdentPart(c) <==> NamePart(c)
    ensures Layout(c) <==> c in LAYOUT
  {
  }

  lemma AllClasses()
    ensures forall c {:trigger Digit(c)} {:trigger c in DIGITS} :: Digit(c) <==> c in DIGITS
    ensures forall c {:trigger HexDigit(c)} {:trigger c in HEX_DIGITS} :: HexDigit(c) <==> c in HEX_DIGITS
    ensures forall c :: IdentStart(c) <==> NameStart(c)
    ensures forall c :: IdentPart(c) <==> NamePart(c)
    ensures forall c :: Layout(c) <==> c in LAYOUT
  {
    forall c { Classes(c); }
  }

  // ---------------------------------------------------------------- digits

  /** `Digits` stops at the end of the longest stretch of grouped digits. */
  lemma {:induction false} DigitsLongest(s: string, i: nat, f: char -> bool, digits: set<char>)
    requires !f('\n') && i <= |s| && forall c :: f(c) <==> c in digits
    requires '_' !in digits
    ensures Grouped(s[i..Digits(s, i, f)], digits)
    ensures forall m :: i <= m <= |s| && Grouped(s[i..m], digits) ==> m <= Digits(s, i, f)
    decreases |s| - i
  {
    var j := Digits(s, i, f);
    if i < |s| && f(s[i]) {
      DigitsLongest(s, i + 1, f, digits);
      GroupedMore(s, i, i + 1, j, digits);
      forall m | i <= m <= |s| && Grouped(s[i..m], digits) ensures m <= j {
        if m > i { GroupedLess(s, i, i + 1, m, digits); }
      }
    } else if i < |s| && s[i] == '_' && f(At(s, i + 1)) {
      DigitsLongest(s, i + 2, f, digits);
      GroupedMore(s, i, i + 2, j, digits);
      forall m | i <= m <= |s| && Grouped(s[i..m], digits) ensures m <= j {
        if m > i {
          GroupStarts(s, i, m, digits);
          GroupedLess(s, i, i + 2, m, digits);
        }
      }
    } else {
      forall m | i <= m <= |s| && Grouped(s[i..m], digits) ensures m <= j {
        if m > i { GroupStarts(s, i, m, digits); }
      }
    }
  }

  lemma GroupStarts(s: string, i: nat, m: nat, digits: set<char>)
    requires i < m <= |s| && Grouped(s[i..m], digits)
    ensures s[i] in digits || (s[i] == '_' && i + 1 < m && s[i + 1] in digits)
  {
    assert InGroup(s[i..m], 0, digits);
  }

  lemma GroupedMore(s: string, i: nat, k: nat, j: nat, digits: set<char>)
    requires i < k <= j <= |s| && Grouped(s[k..j], digits) && s[k - 1] in digits
    requires k == i + 1 || (k == i + 2 && s[i] == '_')
    ensures Grouped(s[i..j], digits)
  {
    var t, u := s[i..j], s[k..j];
    forall x | 0 <= x < |t| ensures InGroup(t, x, digits) {
      if x >= k - i { assert InGroup(u, x - (k - i), digits); }
    }
  }

  lemma GroupedLess(s: string, i: nat, k: nat, m: nat, digits: set<char>)
    requires i <= k <= m <= |s| && Grouped(s[i..m], digits)
    ensures Grouped(s[k..m], digits)
  {
    var t, u := s[i..m], s[k..m];
    forall x | 0 <= x < |u| ensures InGroup(u, x, digits) {
      assert InGroup(t, x + (k - i), digits);
    }
  }

  /** A digit and `Digits` behind it are the longest run of digits from i. */
  lemma RunLongest(s: string, i: nat, f: char -> bool, digits: set<char>)
    requires !f('\n') && i < |s| && f(s[i]) && (forall c :: f(c) <==> c in digits) && '_' !in digits
    ensures DigitRun(s[i..Digits(s, i + 1, f)], digits)
    ensures forall m :: i < m <= |s| && DigitRun(s[i..m], digits) ==> m <= Digits(s, i + 1, f)
  {
    hide Grouped;
    DigitsLongest(s, i + 1, f, digits);
    GroupedMore(s, i, i + 1, Digits(s, i + 1, f), digits);
    forall m | i < m <= |s| && DigitRun(s[i..m], digits) ensures m <= Digits(s, i + 1, f) {
      GroupedLess(s, i, i + 1, m, digits);
    }
  }

  lemma RunStarts(s: string, i: nat, m: nat, digits: set<char>)
    requires i <= m <= |s| && DigitRun(s[i..m], digits)
    ensures i < m && s[i] in digits
    ensures forall x :: i <= x < m ==> s[x] in digits || s[x] == '_'
  {
    forall x | i <= x < m ensures s[x] in digits || s[x] == '_' {
      assert InGroup(s[i..m], x - i, digits);
    }
  }

  /** The longest run of decimal digits from i. */
  lemma DecimalRun(s: string, i: nat)
    requires i < |s| && Digit(s[i])
    ensures i < Digits(s, i + 1, Digit) <= |s| && DigitRun(s[i..Digits(s, i + 1, Digit)], DIGITS)
    ensures forall m :: i < m <= |s| && DigitRun(s[i..m], DIGITS) ==> m <= Digits(s, i + 1, Digit)
  {
    hide DigitRun;
    AllClasses();
    RunLongest(s, i, Digit, DIGITS);
  }

  // ---------------------------------------------------------------- numbers

  /** Where the digits and the point of a decimal number end. */
  ghost function MantissaEnd(s: string): nat
    requires s != "" && (Digit(s[0]) || (s[0] == '.' && Digit(At(s, 1))))
  {
    if s[0] == '.' then Digits(s, 2, Digit)
    else
      var j := Digits(s, 1, Digit);
      if At(s, j) != '.' then j else if Digit(At(s, j + 1)) then Digits(s, j + 2, Digit) else j + 1
  }

  lemma MantissaIs(s: string)
    requires s != "" && (Digit(s[0]) || (s[0] == '.' && Digit(At(s, 1))))
    ensures 0 < MantissaEnd(s) <= |s| && Mantissa(s[..MantissaEnd(s)])
  {
    hide DigitRun, Digits, Digit, PointAt;
    Classes('.');
    Classes('\n');
    if s[0] == '.' {
      DecimalRun(s, 1);
      Pointed(s, 0, MantissaEnd(s));
    } else {
      var j := Digits(s, 1, Digit);
      DecimalRun(s, 0);
      assert s[0..j] == s[..j];
      if At(s, j) == '.' {
        if Digit(At(s, j + 1)) { DecimalRun(s, j + 1); }
        Pointed(s, j, MantissaEnd(s));
      }
    }
  }

  /** Digits, a point at j, and digits up to k form a mantissa. */
  lemma Pointed(s: string, j: nat, k: nat)
    requires j < k <= |s| && s[j] == '.' && k > 1
    requires j > 0 ==> DigitRun(s[0..j], DIGITS)
    requires j + 1 < k ==> DigitRun(s[j + 1..k], DIGITS)
    ensures PointAt(s[..k], j)
  {
    hide DigitRun;
    var t := s[..k];
    assert t[..j] == s[0..j] && t[j + 1..] == s[j + 1..k];
  }

  lemma PointedLongest(s: string, m: nat, q: nat)
    requires 0 < m <= |s| && PointAt(s[..m], q)
    requires Digit(s[0]) || (s[0] == '.' && Digit(At(s, 1)))
    ensures m <= MantissaEnd(s)
  {
    hide DigitRun, Digits, Digit;
    Classes('.');
    Classes('\n');
    PointParts(s, m, q);
    if s[0] == '.' {
      DecimalRun(s, 1);
    } else {
      var j := Digits(s, 1, Digit);
      DecimalRun(s, 0);
      RunStarts(s, 0, j, DIGITS);
      Classes(s[q]);
      assert q == j;
      if q + 1 < m {
        Classes(s[q + 1]);
        DecimalRun(s, j + 1);
      }
    }
  }

  lemma PointParts(s: string, m: nat, q: nat)
    requires 0 < m <= |s| && PointAt(s[..m], q)
    ensures q < m && s[q] == '.' && m > 1
    ensures q > 0 ==> DigitRun(s[0..q], DIGITS) && s[0] in DIGITS
    ensures q + 1 < m ==> DigitRun(s[q + 1..m], DIGITS) && s[q + 1] in DIGITS
  {
    hide DigitRun;
    var t := s[..m];
    assert t[q + 1..] == s[q + 1..m] && t[..q] == s[0..q] && t[q] == s[q];
    if q > 0 { RunStarts(s, 0, q, DIGITS); }
    if q + 1 < m { RunStarts(s, q + 1, m, DIGITS); }
  }

  lemma MantissaLongest(s: string, m: nat)
    requires 0 < m <= |s| && Mantissa(s[..m]) && (Digit(s[0]) || (s[0] == '.' && Digit(At(s, 1))))
    ensures m <= MantissaEnd(s)
  {
    AllClasses();
    var t := s[..m];
    assert t == s[0..m];
    if DigitRun(t, DIGITS) {
      RunStarts(s, 0, m, DIGITS);
      RunLongest(s, 0, Digit, DIGITS);
    } else {
      var q: nat :| PointAt(t, q);
      PointedLongest(s, m, q);
    }
  }

  lemma PowerIs(s: string, k: nat)
    requires k <= |s|
    ensures k <= Exponent(s, k) <= |s| && (k < Exponent(s, k) ==> Power(s[k..Exponent(s, k)]))
  {
    hide DigitRun, Digits, Digit;
    Classes('\n');
    var n := Exponent(s, k);
    if k < n {
      var j := if At(s, k + 1) == '+' || At(s, k + 1) == '-' then k + 2 else k + 1;
      assert j < |s| && Digit(s[j]);
      DecimalRun(s, j);
      assert s[k..n][j - k..] == s[j..n];
    }
  }

  lemma PowerLongest(s: string, k: nat, m: nat)
    requires k < m <= |s| && Power(s[k..m])
    ensures m <= Exponent(s, k)
  {
    hide DigitRun, Digits, Digit;
    var j := PowerParts(s, k, m);
    Classes(s[j]);
    Classes('+');
    Classes('-');
    DecimalRun(s, j);
  }

  /** The digits of an exponent start behind its mark, or behind its sign. */
  lemma PowerParts(s: string, k: nat, m: nat) returns (j: nat)
    requires k < m <= |s| && Power(s[k..m])
    ensures s[k] in {'e', 'E'} && k < j < m && s[j] in DIGITS && DigitRun(s[j..m], DIGITS)
    ensures j == k + 1 || (j == k + 2 && s[k + 1] in {'+', '-'})
  {
    hide DigitRun;
    var t := s[k..m];
    assert t[0] == s[k] && t[1] == s[k + 1];
    if DigitRun(t[1..], DIGITS) {
      assert t[1..] == s[k + 1..m];
      j := k + 1;
    } else {
      assert t[2..] == s[k + 2..m];
      j := k + 2;
    }
    RunStarts(s, j, m, DIGITS);
  }

  /** Decimal numbers start with a digit, or with a point and a digit, and hold nothing but digits, underscores, points,
      an exponent mark and its sign. */
  lemma MantissaChars(t: string)
    requires Mantissa(t)
    ensures t != "" && (t[0] in DIGITS || (t[0] == '.' && |t| > 1 && t[1] in DIGITS))
    ensures forall x :: 0 <= x < |t| ==> t[x] in DIGITS || t[x] == '_' || t[x] == '.'
  {
    hide DigitRun;
    if DigitRun(t, DIGITS) {
      assert t[0..|t|] == t;
      RunStarts(t, 0, |t|, DIGITS);
    } else {
      var q: nat :| PointAt(t, q);
      if q > 0 { assert t[0..q] == t[..q]; RunStarts(t, 0, q, DIGITS); }
      if q + 1 < |t| { assert t[q + 1..|t|] == t[q + 1..]; RunStarts(t, q + 1, |t|, DIGITS); }
    }
  }

  lemma DecimalChars(t: string)
    requires Decimal(t)
    ensures t != "" && (t[0] in DIGITS || (t[0] == '.' && |t| > 1 && t[1] in DIGITS))
    ensures |t| > 1 ==> t[1] !in {'x', 'X'}
  {
    hide Mantissa, Power, DigitRun;
    if Mantissa(t) {
      MantissaChars(t);
    } else {
      var k: nat :| PowerAt(t, k);
      MantissaChars(t[..k]);
      PowerChars(t[k..]);
    }
  }

  lemma PowerChars(t: string)
    requires Power(t)
    ensures |t| >= 2 && t[0] in {'e', 'E'} && t[1] !in {'x', 'X'}
  {
  }

  lemma NoMarkInside(s: string, k: nat, p: nat)
    requires k <= |s| && p < |s| && Mantissa(s[..k]) && s[p] in {'e', 'E'}
    ensures k <= p
  {
    MantissaChars(s[..k]);
  }

  lemma DecimalIs(s: string)
    requires s != "" && (Digit(s[0]) || (s[0] == '.' && Digit(At(s, 1))))
    ensures var n := Exponent(s, MantissaEnd(s)); 0 < n <= |s| && Decimal(s[..n])
  {
    hide Mantissa, Power, MantissaEnd, Exponent;
    var k := MantissaEnd(s);
    MantissaIs(s);
    PowerIs(s, k);
    var n := Exponent(s, k);
    if k < n {
      assert s[..n][..k] == s[..k] && s[..n][k..] == s[k..n];
      assert PowerAt(s[..n], k);
    }
  }

  lemma DecimalLongest(s: string, m: nat)
    requires 0 < m <= |s| && Decimal(s[..m]) && (Digit(s[0]) || (s[0] == '.' && Digit(At(s, 1))))
    ensures m <= Exponent(s, MantissaEnd(s))
  {
    hide Mantissa, Power, MantissaEnd, Exponent;
    var k, t := MantissaEnd(s), s[..m];
    MantissaIs(s);
    PowerIs(s, k);
    if Mantissa(t) {
      MantissaLongest(s, m);
    } else {
      var p: nat :| PowerAt(t, p);
      assert t[..p] == s[..p] && t[p..] == s[p..m];
      MantissaChars(t[..p]);
      MantissaLongest(s, p);
      PowerChars(t[p..]);
      NoMarkInside(s, k, p);
      PowerLongest(s, k, m);
    }
  }

  lemma HexIs(s: string)
    requires |s| >= 3 && s[0] == '0' && s[1] in {'x', 'X'} && HexDigit(s[2])
    ensures var n := Digits(s, 3, HexDigit); 3 <= n <= |s| && HexNumber(s[..n])
    ensures forall m :: 0 < m <= |s| && HexNumber(s[..m]) ==> m <= Digits(s, 3, HexDigit)
  {
    hide DigitRun;
    AllClasses();
    RunLongest(s, 2, HexDigit, HEX_DIGITS);
    var n := Digits(s, 3, HexDigit);
    assert s[..n][2..] == s[2..n];
    forall m | 0 < m <= |s| && HexNumber(s[..m]) ensures m <= n {
      assert s[..m][2..] == s[2..m];
    }
  }

  lemma HexStarts(t: string)
    requires HexNumber(t)
    ensures |t| >= 3 && t[0] == '0' && t[1] in {'x', 'X'} && t[2] in HEX_DIGITS
  {
  }

  ghost predicate Number(t: string) { HexNumber(t) || Decimal(t) }

  /** `NumberEnd` finds the longest number that the text starts with, if it starts with one. */
  lemma NumberExactly(s: string)
    requires s != ""
    ensures NumberEnd(s).Some? ==> 0 < NumberEnd(s).value <= |s| && Number(s[..NumberEnd(s).value])
    ensures forall m :: 0 < m <= |s| && Number(s[..m]) ==> NumberEnd(s).Some? && m <= NumberEnd(s).value
    ensures NumberEnd(s).Some? <==> s[0] in DIGITS || (s[0] == '.' && |s| > 1 && s[1] in DIGITS)
  {
    AllClasses();
    NumberStarts(s);
    if Digit(s[0]) || (s[0] == '.' && Digit(At(s, 1))) {
      hide HexNumber, Decimal, Digits;
      if s[0] == '0' && (At(s, 1) == 'x' || At(s, 1) == 'X') && HexDigit(At(s, 2)) {
        HexIs(s);
        forall m | 0 < m <= |s| && Number(s[..m]) ensures m <= NumberEnd(s).value {
          if Decimal(s[..m]) { DecimalChars(s[..m]); }
        }
      } else {
        DecimalIs(s);
        DecimalEnd(s);
        forall m | 0 < m <= |s| && Number(s[..m]) ensures m <= NumberEnd(s).value {
          if Decimal(s[..m]) { DecimalLongest(s, m); } else { HexStarts(s[..m]); }
        }
      }
    }
  }

  lemma DecimalEnd(s: string)
    requires s != "" && (Digit(s[0]) || (s[0] == '.' && Digit(At(s, 1))))
    requires !(s[0] == '0' && (At(s, 1) == 'x' || At(s, 1) == 'X') && HexDigit(At(s, 2)))
    ensures NumberEnd(s) == Some(Exponent(s, MantissaEnd(s)))
  {
  }

  /** A number starts with a digit, or with a point and a digit. */
  lemma NumberStarts(s: string)
    requires s != ""
    ensures forall m :: 0 < m <= |s| && Number(s[..m]) ==> s[0] in DIGITS || (s[0] == '.' && |s| > 1 && s[1] in DIGITS)
  {
    hide HexNumber, Decimal;
    forall m | 0 < m <= |s| && Number(s[..m]) ensures s[0] in DIGITS || (s[0] == '.' && |s| > 1 && s[1] in DIGITS) {
      if Decimal(s[..m]) { DecimalChars(s[..m]); } else { HexStarts(s[..m]); }
    }
  }

  // ---------------------------------------------------------------- names, operators, blobs, quotes

  lemma NameHolds(s: string, m: nat, i: nat)
    requires 0 < m <= |s| && Name(s[..m])
    ensures 0 < i < m ==> NamePart(s[i])
  {
    assert 0 < i < m ==> s[..m][i] == s[i];
  }

  lemma NameExactly(s: string)
    requires s != "" && IdentStart(s[0])
    ensures var n := Run(s, 1, IdentPart); 0 < n <= |s| && Name(s[..n])
    ensures forall m :: 0 < m <= |s| && Name(s[..m]) ==> m <= Run(s, 1, IdentPart)
  {
    AllClasses();
    var n := Run(s, 1, IdentPart);
    forall m | 0 < m <= |s| && Name(s[..m]) ensures m <= n { NameHolds(s, m, n); }
  }

  const MARKS: set<char> := {
    '(', ')', ',', '.', ';', '+', '*', '/', '%', '<', '>', '=', '~', '&', '|', '!', '-'
  }

  lemma SingleIs(c: char)
    ensures Single(c) <==> c in MARKS
  {
    var marks := "(),.;+*/%<>=~&|!-";
    assert marks[0] == '(' && marks[1] == ')' && marks[2] == ',' && marks[3] == '.' && marks[4] == ';'
           && marks[5] == '+' && marks[6] == '*' && marks[7] == '/' && marks[8] == '%' && marks[9] == '<'
           && marks[10] == '>' && marks[11] == '=' && marks[12] == '~' && marks[13] == '&' && marks[14] == '|'
           && marks[15] == '!' && marks[16] == '-';
    assert |marks| == 17;
  }

  /** The operators by their characters. */
  ghost predicate OperatorChars(t: string) {
    || (|t| == 1 && t[0] in MARKS)
    || (|t| == 2 && (t[1] == '=' && t[0] in {'<', '>', '!', '='}))
    || (|t| == 2 && t[1] == '>' && t[0] in {'-', '<', '>'})
    || (|t| == 2 && t[0] == t[1] && t[0] in {'|', '<'})
    || (|t| == 3 && t[0] == '-' && t[1] == '>' && t[2] == '>')
  }

  lemma OperatorIs(t: string)
    ensures t in OPERATORS <==> OperatorChars(t)
  {
    if |t| == 1 {
      assert t == [t[0]];
    } else if |t| == 2 {
      assert t == [t[0], t[1]];
    } else if |t| == 3 {
      assert t == [t[0], t[1], t[2]];
    }
  }

  lemma OperatorExactly(s: string)
    requires s != ""
    ensures OperatorEnd(s).Some? ==> 0 < OperatorEnd(s).value <= |s| && s[..OperatorEnd(s).value] in OPERATORS
    ensures forall m :: 0 < m <= |s| && s[..m] in OPERATORS ==> OperatorEnd(s).Some? && m <= OperatorEnd(s).value
  {
    SingleIs(s[0]);
    hide Single;
    forall m | 0 < m <= |s| { OperatorIs(s[..m]); }
  }

  lemma BlobExactly(s: string)
    requires s != ""
    ensures BlobEnd(s).Some? ==> 3 <= BlobEnd(s).value <= |s| && Blob(s[..BlobEnd(s).value])
    ensures forall m :: 0 < m <= |s| && Blob(s[..m]) ==> BlobEnd(s) == Some(m)
  {
    AllClasses();
    var j := Run(s, 2, HexDigit);
    forall m | 0 < m <= |s| && Blob(s[..m]) ensures BlobEnd(s) == Some(m) { BlobClosed(s, m); }
  }

  lemma BlobClosed(s: string, m: nat)
    requires 0 < m <= |s| && Blob(s[..m])
    ensures BlobEnd(s) == Some(m)
  {
    AllClasses();
    var t := s[..m];
    assert t[0] == s[0] && t[1] == s[1] && t[m - 1] == s[m - 1];
    forall i | 2 <= i < m - 1 ensures HexDigit(s[i]) { assert t[i] == s[i]; }
    RunTo(s, 2, m - 1, HexDigit);
  }

  lemma {:induction false} RunTo(s: string, i: nat, j: nat, f: char -> bool)
    requires i <= j < |s| && (forall k :: i <= k < j ==> f(s[k])) && !f(s[j])
    ensures Run(s, i, f) == j
    decreases j - i
  {
    if i < j { RunTo(s, i + 1, j, f); }
  }

  /** A closing quote after paired quotes is where the quote ends, unless it is itself doubled. */
  lemma {:induction false} QuoteCloses(s: string, i: nat, m: nat, q: char)
    requires q != '[' && i < m <= |s| && Paired(s[i..m - 1], q) && s[m - 1] == q
    ensures if m < |s| && s[m] == q then QuoteEnd(s, i, q) == QuoteEnd(s, m + 1, q) else QuoteEnd(s, i, q) == Some(m)
    decreases m - i
  {
    var body := s[i..m - 1];
    if body != "" {
      assert body[0] == s[i] && body[1..] == s[i + 1..m - 1];
      if s[i] != q {
        QuoteCloses(s, i + 1, m, q);
      } else {
        assert body[1] == s[i + 1] && body[2..] == s[i + 2..m - 1];
        QuoteCloses(s, i + 2, m, q);
      }
    }
  }

  lemma {:induction false} QuoteIsPaired(s: string, i: nat, q: char)
    requires q != '[' && i <= |s| && QuoteEnd(s, i, q).Some?
    ensures var n := QuoteEnd(s, i, q).value;
            && i < n <= |s| && s[n - 1] == q && Paired(s[i..n - 1], q) && (n < |s| ==> s[n] != q)
    decreases |s| - i
  {
    var n := QuoteEnd(s, i, q).value;
    var body := s[i..n - 1];
    if s[i] != q {
      QuoteIsPaired(s, i + 1, q);
      assert body[0] == s[i] && body[1..] == s[i + 1..n - 1];
    } else if i + 1 < |s| && s[i + 1] == q {
      QuoteIsPaired(s, i + 2, q);
      assert body[0] == s[i] && body[1] == s[i + 1] && body[2..] == s[i + 2..n - 1];
    }
  }

  lemma QuoteFound(s: string)
    requires s != "" && s[0] in {'\'', '"', '`'} && QuoteEnd(s, 1, s[0]).Some?
    ensures var n := QuoteEnd(s, 1, s[0]).value; 2 <= n <= |s| && QuotedText(s[..n]) && (n < |s| ==> s[n] != s[0])
  {
    hide QuoteEnd;
    QuoteIsPaired(s, 1, s[0]);
    QuotedSlice(s, QuoteEnd(s, 1, s[0]).value);
  }

  lemma QuotedSlice(s: string, n: nat)
    requires 2 <= n <= |s| && s[0] in {'\'', '"', '`'} && s[n - 1] == s[0] && Paired(s[1..n - 1], s[0])
    ensures QuotedText(s[..n])
  {
    hide Paired;
    var t := s[..n];
    assert |t| == n && t[0] == s[0] && t[n - 1] == s[n - 1] && t[1..n - 1] == s[1..n - 1];
  }

  lemma QuoteRead(s: string, m: nat)
    requires s != "" && s[0] in {'\'', '"', '`'} && 0 < m <= |s| && QuotedText(s[..m])
    ensures (m < |s| && s[m] == s[0]) || QuoteEnd(s, 1, s[0]) == Some(m)
    ensures QuoteEnd(s, 1, s[0]).Some? ==> m <= QuoteEnd(s, 1, s[0]).value
  {
    hide Paired;
    assert s[..m][1..m - 1] == s[1..m - 1];
    QuoteCloses(s, 1, m, s[0]);
  }

  /** A quote ends with the first quote that is not doubled. */
  lemma QuoteExactly(s: string)
    requires s != "" && s[0] in {'\'', '"', '`'}
    ensures QuoteEnd(s, 1, s[0]).Some? ==>
              var n := QuoteEnd(s, 1, s[0]).value; 2 <= n <= |s| && QuotedText(s[..n]) && (n < |s| ==> s[n] != s[0])
    ensures forall m :: 0 < m <= |s| && QuotedText(s[..m]) ==>
              || (m < |s| && s[m] == s[0] && (QuoteEnd(s, 1, s[0]).Some? ==> m <= QuoteEnd(s, 1, s[0]).value))
              || QuoteEnd(s, 1, s[0]) == Some(m)
  {
    hide QuotedText, QuoteEnd;
    if QuoteEnd(s, 1, s[0]).Some? { QuoteFound(s); }
    forall m | 0 < m <= |s| && QuotedText(s[..m])
      ensures || (m < |s| && s[m] == s[0] && (QuoteEnd(s, 1, s[0]).Some? ==> m <= QuoteEnd(s, 1, s[0]).value))
              || QuoteEnd(s, 1, s[0]) == Some(m)
    {
      QuoteRead(s, m);
    }
  }

  lemma {:induction false} BracketCloses(s: string, i: nat, m: nat)
    requires i < m <= |s| && (forall k :: i <= k < m - 1 ==> s[k] != ']') && s[m - 1] == ']'
    ensures QuoteEnd(s, i, '[') == Some(m)
    decreases m - i
  {
    if i < m - 1 { BracketCloses(s, i + 1, m); }
  }

  lemma {:induction false} BracketIsOpen(s: string, i: nat)
    requires i <= |s| && QuoteEnd(s, i, '[').Some?
    ensures var n := QuoteEnd(s, i, '[').value;
            i < n <= |s| && s[n - 1] == ']' && forall k :: i <= k < n - 1 ==> s[k] != ']'
    decreases |s| - i
  {
    if s[i] != ']' { BracketIsOpen(s, i + 1); }
  }

  lemma BracketExactly(s: string)
    requires s != "" && s[0] == '['
    ensures QuoteEnd(s, 1, '[').Some? ==>
              2 <= QuoteEnd(s, 1, '[').value <= |s| && BracketedText(s[..QuoteEnd(s, 1, '[').value])
    ensures forall m :: 0 < m <= |s| && BracketedText(s[..m]) ==> QuoteEnd(s, 1, '[') == Some(m)
  {
    if QuoteEnd(s, 1, '[').Some? { BracketIsOpen(s, 1); }
    forall m | 0 < m <= |s| && BracketedText(s[..m]) ensures QuoteEnd(s, 1, '[') == Some(m) {
      forall k | 1 <= k < m - 1 ensures s[k] != ']' { assert s[..m][k] == s[k]; }
      assert s[..m][m - 1] == s[m - 1];
      BracketCloses(s, 1, m);
    }
  }

  // ---------------------------------------------------------------- tokens

  /** What the first character of a token says about it. */
  lemma FirstChar(t: string)
    requires TokenText(t)
    ensures t != ""
    ensures NameStart(t[0]) ==> Name(t) || Blob(t)
    ensures t[0] in DIGITS ==> Number(t)
    ensures t[0] in MARKS ==> t in OPERATORS || Number(t)
    ensures t[0] in {'\'', '"', '`'} ==> QuotedText(t)
    ensures t[0] == '[' ==> BracketedText(t)
    ensures NameStart(t[0]) || t[0] in DIGITS || t[0] in MARKS || t[0] in {'\'', '"', '`', '['}
  {
    hide HexNumber, Decimal, Paired;
    if Decimal(t) { DecimalChars(t); }
    if HexNumber(t) { HexStarts(t); }
    OperatorIs(t);
  }

  ghost predicate NotContinued(s: string, n: nat)
    requires s != ""
  {
    s[0] in {'\'', '"', '`'} && n < |s| ==> s[n] != s[0]
  }

  /** `r` is the end of the longest token at the head of the text, and None if there is no token there. */
  ghost predicate Longest(s: string, r: Option<nat>)
    requires s != ""
  {
    && (r.Some? ==>
       && 0 < r.value <= |s| && TokenText(s[..r.value]) && NotContinued(s, r.value)
       && forall m :: 0 < m <= |s| && TokenText(s[..m]) ==> m <= r.value)
    && forall m :: 0 < m <= |s| && TokenText(s[..m]) && NotContinued(s, m) ==> r.Some?
  }

  /** Before a blob only one letter is a name. */
  lemma NameBeforeBlob(s: string)
    requires s != "" && BlobEnd(s).Some?
    ensures forall m :: 0 < m <= |s| && Name(s[..m]) ==> m <= 1
  {
    hide Name;
    assert s[1] == '\'' && !NamePart(s[1]);
    forall m | 0 < m <= |s| && Name(s[..m]) ensures m <= 1 { NameHolds(s, m, 1); }
  }

  lemma NameLongest(s: string)
    requires s != "" && NameStart(s[0])
    ensures Longest(s, if BlobEnd(s).Some? then BlobEnd(s) else Some(Run(s, 1, IdentPart)))
  {
    hide HexNumber, Decimal, QuotedText, BracketedText, Name, Blob, BlobEnd, Run, OPERATORS;
    Classes(s[0]);
    NameExactly(s);
    BlobExactly(s);
    if BlobEnd(s).Some? { NameBeforeBlob(s); }
    forall m | 0 < m <= |s| && TokenText(s[..m]) ensures Name(s[..m]) || Blob(s[..m]) { FirstChar(s[..m]); }
  }

  lemma NumberLongest(s: string)
    requires s != "" && !NameStart(s[0]) && s[0] !in {'\'', '"', '`', '['}
    ensures Longest(s, if NumberEnd(s).Some? then NumberEnd(s) else OperatorEnd(s))
  {
    hide HexNumber, Decimal, Name, Blob, QuotedText, BracketedText, NumberEnd, OperatorEnd, OPERATORS;
    NumberExactly(s);
    OperatorExactly(s);
    forall m | 0 < m <= |s| && TokenText(s[..m]) ensures s[..m] in OPERATORS || Number(s[..m]) { FirstChar(s[..m]); }
    if NumberEnd(s).Some? {
      forall m | 0 < m <= |s| && s[..m] in OPERATORS ensures m <= NumberEnd(s).value { PointBefore(s, m); }
    }
  }

  /** The only operator that a number can start with is the point. */
  lemma PointBefore(s: string, m: nat)
    requires 0 < m <= |s| && s[..m] in OPERATORS
    requires s[0] in DIGITS || (s[0] == '.' && |s| > 1 && s[1] in DIGITS)
    ensures m == 1
  {
    OperatorIs(s[..m]);
  }

  lemma QuoteLongest(s: string)
    requires s != "" && s[0] in {'\'', '"', '`', '['}
    ensures Longest(s, QuoteEnd(s, 1, s[0]))
  {
    hide HexNumber, Decimal, Name, Blob, QuotedText, BracketedText, OPERATORS, QuoteEnd;
    if s[0] == '[' { BracketExactly(s); } else { QuoteExactly(s); }
    forall m | 0 < m <= |s| && TokenText(s[..m])
      ensures if s[0] == '[' then BracketedText(s[..m]) else QuotedText(s[..m])
    {
      FirstChar(s[..m]);
    }
  }

  /** Where no comment and no layout stands, the head of a text is its longest token, or an error if it has none. */
  lemma HeadLongest(s: string)
    requires s != "" && s[0] !in LAYOUT && !LineComment(s) && !BlockComment(s)
    ensures !HeadOf(s).Skip? && Longest(s, if HeadOf(s).Token? then Some(HeadOf(s).n) else None)
  {
    hide Longest, NumberEnd, OperatorEnd, BlobEnd, QuoteEnd, Run;
    AllClasses();
    if NameStart(s[0]) {
      NameLongest(s);
    } else if s[0] in {'\'', '"', '`', '['} {
      NoBlob(s);
      QuoteLongest(s);
    } else {
      NoBlob(s);
      NumberLongest(s);
    }
  }

  lemma NoBlob(s: string)
    requires s != "" && !NameStart(s[0])
    ensures BlobEnd(s).None?
  {
  }

  /** The scanner takes n characters as a token exactly if they are the longest token that the text starts with. */
  lemma TokenExactly(s: string, n: nat)
    requires s != ""
    ensures HeadOf(s) == Token(n) <==> TokenHere(s, n)
  {
    hide HeadOf, TokenText;
    if s[0] in LAYOUT || LineComment(s) || BlockComment(s) {
      HeadSkips(s);
      if 0 < n <= |s| && TokenText(s[..n]) { TokenNoLayout(s[..n]); }
    } else {
      HeadLongest(s);
    }
  }

  lemma TokenNoLayout(t: string)
    requires TokenText(t)
    ensures t != "" && t[0] !in LAYOUT
  {
    hide TokenText;
    FirstChar(t);
  }

  lemma HeadSkips(s: string)
    requires s != "" && (s[0] in LAYOUT || LineComment(s) || BlockComment(s))
    ensures !HeadOf(s).Token?
  {
    Classes(s[0]);
  }

  // ---------------------------------------------------------------- layout and comments

  lemma {:induction false} LineEndExactly(s: string, i: nat, n: nat)
    requires i <= n && n < |s| && s[n] == '\n' && forall k :: i <= k < n ==> s[k] != '\n'
    ensures LineEnd(s, i) == Some(n)
    decreases n - i
  {
    if i < n { LineEndExactly(s, i + 1, n); }
  }

  lemma {:induction false} LineEndFirst(s: string, i: nat)
    ensures LineEnd(s, i).Some? ==>
              i <= LineEnd(s, i).value < |s| && s[LineEnd(s, i).value] == '\n'
              && forall k :: i <= k < LineEnd(s, i).value ==> s[k] != '\n'
    ensures LineEnd(s, i).None? ==> forall k :: i <= k < |s| ==> s[k] != '\n'
    decreases |s| - i
  {
    if i < |s| && s[i] != '\n' { LineEndFirst(s, i + 1); }
  }

  lemma {:induction false} CommentEndExactly(s: string, i: nat, n: nat)
    requires i + 2 <= n <= |s| && s[n - 2] == '*' && s[n - 1] == '/'
    requires forall k :: i <= k < n - 2 ==> !(s[k] == '*' && s[k + 1] == '/')
    ensures CommentEnd(s, i) == Some(n)
    decreases n - i
  {
    if i < n - 2 { CommentEndExactly(s, i + 1, n); }
  }

  lemma {:induction false} CommentEndFirst(s: string, i: nat)
    ensures CommentEnd(s, i).Some? ==>
              var n := CommentEnd(s, i).value;
              i + 2 <= n <= |s| && s[n - 2] == '*' && s[n - 1] == '/'
              && forall k :: i <= k < n - 2 ==> !(s[k] == '*' && s[k + 1] == '/')
    decreases |s| - i
  {
    if i + 1 < |s| && !(s[i] == '*' && s[i + 1] == '/') { CommentEndFirst(s, i + 1); }
  }

  lemma LayoutSkips(s: string, n: nat)
    requires s != "" && s[0] in LAYOUT
    ensures HeadOf(s) == Skip(n) <==> SkipHere(s, n)
  {
    AllClasses();
    if SkipHere(s, n) {
      if n < |s| { RunTo(s, 1, n, Layout); } else { RunAll(s, 1, Layout); }
    }
  }

  lemma {:induction false} RunAll(s: string, i: nat, f: char -> bool)
    requires i <= |s| && forall k :: i <= k < |s| ==> f(s[k])
    ensures Run(s, i, f) == |s|
    decreases |s| - i
  {
    if i < |s| { RunAll(s, i + 1, f); }
  }

  lemma LineSkips(s: string, n: nat)
    requires LineComment(s)
    ensures HeadOf(s) == Skip(n) <==> SkipHere(s, n)
  {
    LineEndFirst(s, 2);
    if SkipHere(s, n) && n > 2 && s[n - 1] == '\n' { LineEndExactly(s, 2, n - 1); }
  }

  lemma BlockSkips(s: string, n: nat)
    requires BlockComment(s)
    ensures HeadOf(s) == Skip(n) <==> SkipHere(s, n)
  {
    CommentEndFirst(s, 2);
    if SkipHere(s, n) { CommentEndExactly(s, 2, n); }
  }

  /** The scanner skips n characters exactly if they are all the leading layout, a line comment with its line end, or a
      block comment up to its first closing mark. */
  lemma SkipExactly(s: string, n: nat)
    requires s != ""
    ensures HeadOf(s) == Skip(n) <==> SkipHere(s, n)
  {
    hide HeadOf;
    if s[0] in LAYOUT {
      LayoutSkips(s, n);
    } else if LineComment(s) {
      LineSkips(s, n);
    } else if BlockComment(s) {
      BlockSkips(s, n);
    } else {
      HeadLongest(s);
    }
  }

  // ---------------------------------------------------------------- whole texts

  /** How a text that is not empty can be taken apart. */
  lemma ReadsByHead(s: string, tokens: seq<string>)
    requires s != ""
    ensures HeadOf(s).Bad? ==> !Reads(s, tokens)
    ensures HeadOf(s).Skip? ==> (Reads(s, tokens) <==> Reads(s[HeadOf(s).n..], tokens))
    ensures HeadOf(s).Token? ==>
              (Reads(s, tokens) <==>
               tokens != [] && tokens[0] == s[..HeadOf(s).n] && Reads(s[HeadOf(s).n..], tokens[1..]))
  {
    hide HeadOf, SkipHere, TokenHere, Lex;
    HeadIsOne(s);
    if HeadOf(s).Skip? { assert SkipHere(s, HeadOf(s).n); }
    if HeadOf(s).Token? { assert TokenHere(s, HeadOf(s).n); }
  }

  /** The tokenizer returns exactly the tokens that the text consists of: each as long as possible, with layout and
      comments around them; and it fails exactly on the texts that cannot be taken apart like this. */
  lemma {:induction false} LexExactly(s: string, tokens: seq<string>)
    ensures Lex(s) == Some(tokens) <==> Reads(s, tokens)
    decreases |s|
  {
    if s != "" {
      hide HeadOf, Reads;
      var h := HeadOf(s);
      ReadsByHead(s, tokens);
      if h.Skip? {
        LexExactly(s[h.n..], tokens);
      } else if h.Token? && tokens != [] {
        LexExactly(s[h.n..], tokens[1..]);
        Prepended(s[..h.n], Lex(s[h.n..]), tokens);
      }
    }
  }

  lemma Prepended(token: string, rest: Option<seq<string>>, tokens: seq<string>)
    requires tokens != []
    ensures Prepend(token, rest) == Some(tokens) <==> token == tokens[0] && rest == Some(tokens[1..])
  {
    if rest.Some? && token == tokens[0] && rest.value == tokens[1..] {
      assert [token] + rest.value == tokens;
    }
    if Prepend(token, rest) == Some(tokens) { assert tokens[1..] == rest.value; }
  }

  lemma HeadIsOne(s: string)
    requires s != ""
    ensures forall n: nat :: SkipHere(s, n) <==> HeadOf(s) == Skip(n)
    ensures forall n: nat :: TokenHere(s, n) <==> HeadOf(s) == Token(n)
  {
    hide HeadOf, SkipHere, TokenHere;
    forall n: nat ensures SkipHere(s, n) <==> HeadOf(s) == Skip(n) { SkipExactly(s, n); }
    forall n: nat ensures TokenHere(s, n) <==> HeadOf(s) == Token(n) { TokenExactly(s, n); }
  }

  lemma OperatorIsToken(t: string)
    requires t in OPERATORS
    ensures TokenHere(t, |t|)
  {
    OperatorIs(t);
    assert t[..|t|] == t;
    hide OPERATORS, Name, HexNumber, Decimal, Blob, QuotedText, BracketedText;
  }

  /** Every operator, alone, is one token. */
  lemma OperatorsRead(t: string)
    requires t in OPERATORS
    ensures t != "" && Lex(t) == Some([t])
  {
    OperatorIs(t);
    hide HeadOf, TokenHere, OPERATORS;
    OperatorIsToken(t);
    TokenExactly(t, |t|);
    assert t[..|t|] == t && t[|t|..] == "" && Lex("") == Some([]);
    assert [t] + [] == [t];
  }

  /** `canonicalSql` returns the tokens that its text consists of, without the last one if that is a semicolon. */
  lemma CanonicalExactly(sql: string, tokens: seq<string>)
    ensures SqlCanonical.Canonical(sql) == Some(tokens) <==>
            Reads(sql, tokens + [";"]) || (Reads(sql, tokens) && (tokens == [] || tokens[|tokens| - 1] != ";"))
  {
    hide Reads, Lex;
    LexExactly(sql, tokens);
    LexExactly(sql, tokens + [";"]);
    var r := Lex(sql);
    if r.Some? && r.value != [] && r.value[|r.value| - 1] == ";" {
      assert r.value == r.value[..|r.value| - 1] + [";"];
    }
    assert (tokens + [";"])[..|tokens|] == tokens && (tokens + [";"])[|tokens|] == ";";
  }
}
