/**
 * The lexical grammar the lexer implements, as functions of the character
 * stream still to be read (a sequence of units; EOS lies beyond its end).
 * Each scanner takes the stream at the lexeme's first character and says what
 * the lexer's corresponding routine returns and how many units it consumes.
 */
module Lexemes {
  import opened Wrappers
  import opened Exceptions
  import opened Tokens
  import opened Symbols
  import opened LexerTables
  import opened CharBuffers

  /** The characters that may directly follow a word or a number. */
  const SpecialChars: string := "()+-*/%~!&|<>=,.;:_"

  /** The code at position i, EOS past the end. */
  function At(s: seq<Unit>, i: nat): (c: Code)
    ensures c == EOS <==> i >= |s|
  {
    if i < |s| then s[i] else EOS
  }

  /**
   * The BMP code units `Character.isWhitespace` accepts, as inclusive ranges:
   * the ASCII controls TAB..CR and FS..US, the space, and the Unicode space,
   * line and paragraph separators other than the non-breaking ones.
   */
  const SpaceRanges: seq<(int, int)> := [
    (0x09, 0x0D), (0x1C, 0x20), (0x1680, 0x1680), (0x2000, 0x2006),
    (0x2008, 0x200A), (0x2028, 0x2029), (0x205F, 0x205F), (0x3000, 0x3000)]

  /** `Character.isWhitespace`. */
  predicate IsSpace(c: Code) {
    exists i | 0 <= i < |SpaceRanges| :: SpaceRanges[i].0 <= c <= SpaceRanges[i].1
  }

  /** `Character.isAlphabetic`, restricted to ASCII letters. */
  predicate IsAlphabetic(c: Code) {
    ('a' as int <= c <= 'z' as int) || ('A' as int <= c <= 'Z' as int)
  }

  /** `Character.isDigit`, restricted to ASCII digits. */
  predicate IsDigit(c: Code) {
    '0' as int <= c <= '9' as int
  }

  predicate IsAlnumUnderscore(c: Code) {
    IsAlphabetic(c) || IsDigit(c) || c == '_' as int
  }

  predicate IsSpecialChar(c: Code) {
    c != EOS && CharOf(c) in SpecialChars
  }

  predicate IsSeparator(c: Code) {
    c == EOS || IsSpace(c) || c == ';' as int
  }

  // ---------------------------------------------------------------- spaces

  /** The index of the first non-space at or after i. */
  function SpaceEnd(s: seq<Unit>, i: nat): (k: nat)
    requires i <= |s|
    ensures i <= k <= |s|
    decreases |s| - i
  {
    if i < |s| && IsSpace(s[i]) then SpaceEnd(s, i + 1) else i
  }

  /** The number of '\n' units in s[i..k]. */
  function NewLines(s: seq<Unit>, i: nat, k: nat): (n: nat)
    requires i <= k <= |s|
    ensures n <= k - i
    decreases k - i
  {
    if k == i then 0 else NewLines(s, i, k - 1) + (if s[k - 1] == '\n' as int then 1 else 0)
  }

  // ---------------------------------------------------------------- scanner results

  /** What one scanner makes of the stream: nothing, a lexeme of `end` units, or an error. */
  datatype Lexeme =
    | NoMatch
    | Match(value: string, kind: TokenType, end: nat)
    | Failure(error: ErrorKind)

  /** A lexeme fits a stream when it consumes at least one and at most all of its units. */
  predicate Fits(lx: Lexeme, s: seq<Unit>) {
    lx.Match? ==> 0 < lx.end <= |s|
  }

  // ---------------------------------------------------------------- words

  /** How a word that started before index k goes on at k. */
  datatype WordEnd = EndsAt(end: nat) | InvalidAt(at: nat)

  /** The word loop: alphanumerics and '_' extend it; a separator or another special character ends it; anything else is invalid. */
  function ScanWordFrom(s: seq<Unit>, k: nat): (r: WordEnd)
    requires k <= |s|
    ensures r.EndsAt? ==> k <= r.end <= |s|
    decreases |s| - k
  {
    var c := At(s, k);
    if IsSeparator(c) then EndsAt(k)
    else if IsAlnumUnderscore(c) then ScanWordFrom(s, k + 1)
    else if IsSpecialChar(c) then EndsAt(k)
    else InvalidAt(k)
  }

  /** `getAlnumUnderscoreToken`: a word starts with a letter or '_'; its token type is left UNKNOWN. */
  function ScanWord(s: seq<Unit>): (lx: Lexeme)
    ensures Fits(lx, s)
    ensures lx.Match? ==> lx.kind == UNKNOWN && lx.value == TextOf(s[..lx.end])
    ensures lx.Failure? ==> lx.error == InvalidCharacter
  {
    var c := Head(s);
    if c == EOS || (!IsAlphabetic(c) && c != '_' as int) then NoMatch
    else match ScanWordFrom(s, 0)
      case EndsAt(e) => Match(TextOf(s[..e]), UNKNOWN, e)
      case InvalidAt(_) => Failure(InvalidCharacter)
  }

  // ---------------------------------------------------------------- numbers

  /** The index of the first non-digit at or after j. */
  function DigitsEnd(s: seq<Unit>, j: nat): (k: nat)
    requires j <= |s|
    ensures j <= k <= |s|
    decreases |s| - j
  {
    if j < |s| && IsDigit(s[j]) then DigitsEnd(s, j + 1) else j
  }

  /** `getDigitSeqToken`: the leading digits, as an INT_LITERAL, if there is at least one. */
  function ScanDigits(s: seq<Unit>): (lx: Lexeme)
    ensures Fits(lx, s) && !lx.Failure?
    ensures lx.Match? ==> lx.kind == INT_LITERAL && lx.value == TextOf(s[..lx.end])
  {
    var d := DigitsEnd(s, 0);
    if d == 0 then NoMatch else Match(TextOf(s[..d]), INT_LITERAL, d)
  }

  /** The stream starts with the units of the string. */
  predicate StartsWith(s: seq<Unit>, str: string) {
    |str| <= |s| && forall j | 0 <= j < |str| :: s[j] == str[j] as int
  }

  /**
   * `getStrToken`: the string is matched when it is a prefix of the stream;
   * otherwise nothing is consumed.
   */
  function ScanStr(s: seq<Unit>, str: string, kind: TokenType): (lx: Lexeme)
    ensures !lx.Failure?
    ensures lx.Match? <==> StartsWith(s, str)
    ensures lx.Match? ==> lx == Match(str, kind, |str|)
  {
    if StartsWith(s, str) then Match(str, kind, |str|) else NoMatch
  }

  /** The numeral text the lexer uses for a run of digits: the digits, or "0" when there are none. */
  function DigitsOr0(lx: Lexeme): string {
    if lx.Match? then lx.value else "0"
  }

  /**
   * `getNumberToken`: optional digits, an optional '.', and after a '.' optional
   * digits; absent parts read as "0". Nothing is a number unless it has digits
   * or a '.'; it is an INT_LITERAL exactly when it has no '.'.
   */
  function ScanNumber(s: seq<Unit>): (lx: Lexeme)
    ensures Fits(lx, s) && !lx.Failure?
  {
    var intPart := ScanDigits(s);
    var d := if intPart.Match? then intPart.end else 0;
    var dot := ScanStr(s[d..], ".", UNKNOWN);
    if intPart.NoMatch? && dot.NoMatch? then NoMatch
    else if dot.NoMatch? then Match(intPart.value, INT_LITERAL, d)
    else
      var fraction := ScanDigits(s[d + 1..]);
      var f := if fraction.Match? then fraction.end else 0;
      Match(DigitsOr0(intPart) + "." + DigitsOr0(fraction), FLOAT_LITERAL, d + 1 + f)
  }

  /** What may follow a number without an exponent: EOS, a space, or a special character other than '.'. */
  predicate EndsNumber(c: Code) {
    c == EOS || IsSpace(c) || (IsSpecialChar(c) && c != '.' as int)
  }

  /** The optional exponent sign: '+' is tried before '-'. */
  function ScanSign(s: seq<Unit>): (lx: Lexeme)
    ensures Fits(lx, s) && !lx.Failure?
    ensures lx.Match? ==> lx.end == 1
  {
    var plus := ScanStr(s, "+", UNKNOWN);
    if plus.Match? then plus else ScanStr(s, "-", UNKNOWN)
  }

  /**
   * `getScientificNumberToken`: a number, then optionally 'e', an optional sign
   * and a mandatory second number. With an exponent the lexeme is always a
   * FLOAT_LITERAL "<mantissa>e<sign><exponent>".
   */
  function ScanScientific(s: seq<Unit>): (lx: Lexeme)
    ensures Fits(lx, s)
    ensures lx.Failure? ==> lx.error == InvalidNumericExpression
    ensures lx.NoMatch? <==> ScanNumber(s).NoMatch?
  {
    var mantissa := ScanNumber(s);
    if mantissa.NoMatch? then NoMatch
    else
      var m := mantissa.end;
      var e := ScanStr(s[m..], "e", UNKNOWN);
      if e.NoMatch? then
        if EndsNumber(Head(s[m..])) then mantissa else Failure(InvalidNumericExpression)
      else
        var sign := ScanSign(s[m + 1..]);
        var x := m + 1 + (if sign.Match? then 1 else 0);
        var exponent := ScanNumber(s[x..]);
        if exponent.NoMatch? then Failure(InvalidNumericExpression)
        else
          var text := if sign.Match? then mantissa.value + "e" + sign.value else mantissa.value + "e";
          Match(text + exponent.value, FLOAT_LITERAL, x + exponent.end)
  }

  // ---------------------------------------------------------------- operators

  predicate IsOperatorEntry(r: Option<SymbolInfo>) {
    r.Some? && r.value.Kind() == OPERATOR
  }

  /** The munch loop: extend the lexeme while the extended text has an operator entry. */
  function OperatorEnd(s: seq<Unit>, j: nat, table: map<string, Option<SymbolInfo>>): (k: nat)
    requires j <= |s|
    ensures j <= k <= |s|
    ensures k > j ==> IsOperatorEntry(Lookup(table, TextOf(s[..k])))
    decreases |s| - j
  {
    if j < |s| && IsOperatorEntry(Lookup(table, TextOf(s[..j + 1]))) then OperatorEnd(s, j + 1, table) else j
  }

  /** `getOperatorToken`: the longest operator-entry prefix reachable one character at a time. */
  function ScanOperator(s: seq<Unit>, table: map<string, Option<SymbolInfo>>): (lx: Lexeme)
    ensures Fits(lx, s) && !lx.Failure?
    ensures lx.Match? ==> lx.value == TextOf(s[..lx.end]) && IsOperatorEntry(Lookup(table, lx.value))
    ensures lx.Match? ==> lx.kind == Lookup(table, lx.value).value.tokenType
  {
    var k := OperatorEnd(s, 0, table);
    if k == 0 then NoMatch
    else Match(TextOf(s[..k]), Lookup(table, TextOf(s[..k])).value.tokenType, k)
  }

  // ---------------------------------------------------------------- next token

  /** One call of `getNextToken` on an empty token buffer. */
  datatype Step = End | Emit(token: Token, end: nat) | Stop(error: Error)

  /** A word's token type: VAR when the table has nothing for it, else the entry's type. */
  function WordType(word: string, table: map<string, Option<SymbolInfo>>): (t: TokenType)
    ensures Lookup(table, word).None? ==> t == VAR
    ensures Lookup(table, word).Some? ==> t == Lookup(table, word).value.TokenTypeOf()
  {
    match Lookup(table, word)
    case None => VAR
    case Some(symbol) => symbol.TokenTypeOf()
  }

  /**
   * `getNextToken` once the spaces are skipped: nothing at the end of the
   * stream, else a word, a number or an operator, tried in that order.
   */
  function TokenAt(t: seq<Unit>, line: int, table: map<string, Option<SymbolInfo>>): (r: Step)
    ensures r.Emit? ==> 0 < r.end <= |t| && r.token.lineNumber == line
    ensures r.End? <==> t == []
    ensures r.Stop? ==> r.error.SyntaxError? && r.error.line == line
  {
    if t == [] then End
    else match ScanWord(t)
      case Failure(kind) => Stop(SyntaxError(kind, line))
      case Match(word, _, e) => Emit(Token(word, WordType(word, table), line), e)
      case NoMatch =>
        match ScanScientific(t)
        case Failure(kind) => Stop(SyntaxError(kind, line))
        case Match(number, kind, e) => Emit(Token(number, kind, line), e)
        case NoMatch =>
          match ScanOperator(t, table)
          case Match(op, kind, e) => Emit(Token(op, kind, line), e)
          case _ => Stop(SyntaxError(InvalidSyntax, line))
  }

  /**
   * `getNextToken`: skip spaces (counting lines), then TokenAt on the rest.
   * The token and any error carry the line reached after the spaces.
   */
  function NextToken(s: seq<Unit>, line: int, table: map<string, Option<SymbolInfo>>): (r: Step)
    ensures r.Emit? ==> SpaceEnd(s, 0) < r.end <= |s| && r.token.lineNumber == LineAfter(s, line)
    ensures r.End? <==> SpaceEnd(s, 0) == |s|
    ensures r.Stop? ==> r.error.SyntaxError? && r.error.line == LineAfter(s, line)
  {
    var k := SpaceEnd(s, 0);
    match TokenAt(s[k..], LineAfter(s, line), table)
    case Emit(token, e) => Emit(token, k + e)
    case step => step
  }

  /** The line the lexer is on after one call of `getNextToken`. */
  function LineAfter(s: seq<Unit>, line: int): int {
    line + NewLines(s, 0, SpaceEnd(s, 0))
  }

  /** Repeated `getNextToken` until it returns null: the whole stream's tokens, or the first error. */
  function Tokenize(s: seq<Unit>, line: int, table: map<string, Option<SymbolInfo>>): (r: Result<seq<Token>>)
    ensures r.Ok? ==> forall i | 0 <= i < |r.value| :: r.value[i].lineNumber >= line
    decreases |s|
  {
    match NextToken(s, line, table)
    case End => Ok([])
    case Stop(e) => Err(e)
    case Emit(token, e) =>
      var rest :- Tokenize(s[e..], LineAfter(s, line), table);
      Ok([token] + rest)
  }

  // ---------------------------------------------------------------- properties of the scanners

  /** Skipping stops at the first non-space, and everything skipped is a space. */
  lemma {:induction false} SpaceEndSkipsSpaces(s: seq<Unit>, i: nat)
    requires i <= |s|
    ensures !IsSpace(At(s, SpaceEnd(s, i)))
    ensures forall j | i <= j < SpaceEnd(s, i) :: IsSpace(s[j])
    decreases |s| - i
  {
    if i < |s| && IsSpace(s[i]) {
      SpaceEndSkipsSpaces(s, i + 1);
    }
  }

  /** A digit run stops at the first non-digit, and holds only digits. */
  lemma {:induction false} DigitsEndStopsAtNonDigit(s: seq<Unit>, j: nat)
    requires j <= |s|
    ensures !IsDigit(At(s, DigitsEnd(s, j)))
    ensures forall i | j <= i < DigitsEnd(s, j) :: IsDigit(s[i])
    decreases |s| - j
  {
    if j < |s| && IsDigit(s[j]) {
      DigitsEndStopsAtNonDigit(s, j + 1);
    }
  }

  /**
   * The word loop consumes only alphanumerics and '_'; it ends before a
   * separator or before a special character that is not '_', and fails on the
   * first character that is none of these.
   */
  lemma {:induction false} ScanWordFromStops(s: seq<Unit>, k: nat)
    requires k <= |s|
    ensures ScanWordFrom(s, k).EndsAt? ==>
      var e := ScanWordFrom(s, k).end;
      !IsAlnumUnderscore(At(s, e)) && (IsSeparator(At(s, e)) || IsSpecialChar(At(s, e))) &&
      forall j | k <= j < e :: IsAlnumUnderscore(s[j])
    ensures ScanWordFrom(s, k).InvalidAt? ==>
      var a := ScanWordFrom(s, k).at;
      k <= a < |s| && !IsSeparator(s[a]) && !IsAlnumUnderscore(s[a]) && !IsSpecialChar(s[a]) &&
      forall j | k <= j < a :: IsAlnumUnderscore(s[j])
    decreases |s| - k
  {
    var c := At(s, k);
    if !IsSeparator(c) && IsAlnumUnderscore(c) {
      ScanWordFromStops(s, k + 1);
    }
  }

  /**
   * A word starts with a letter or '_', consists of alphanumerics and '_', and
   * is followed by a separator or by a special character.
   */
  lemma WordLexeme(s: seq<Unit>)
    ensures ScanWord(s).NoMatch? <==> !IsAlphabetic(Head(s)) && Head(s) != '_' as int
    ensures ScanWord(s).Match? ==>
      var e := ScanWord(s).end;
      (IsAlphabetic(s[0]) || s[0] == '_' as int) &&
      (forall j | 0 <= j < e :: IsAlnumUnderscore(s[j])) &&
      (IsSeparator(At(s, e)) || IsSpecialChar(At(s, e)))
  {
    ScanWordFromStops(s, 0);
  }

  /** The operator munch stops only where one more character would not be an operator entry. */
  lemma {:induction false} OperatorEndMaximal(s: seq<Unit>, j: nat, table: map<string, Option<SymbolInfo>>)
    requires j <= |s|
    ensures var k := OperatorEnd(s, j, table);
      (k == |s| || !IsOperatorEntry(Lookup(table, TextOf(s[..k + 1])))) &&
      forall i | j < i <= k :: IsOperatorEntry(Lookup(table, TextOf(s[..i])))
    decreases |s| - j
  {
    if j < |s| && IsOperatorEntry(Lookup(table, TextOf(s[..j + 1]))) {
      OperatorEndMaximal(s, j + 1, table);
    }
  }

  /**
   * An operator lexeme is maximal: every non-empty prefix of it is an operator
   * entry, and the one-unit-longer prefix of the stream is not. Nothing matches
   * when the first character alone is not an operator entry.
   */
  lemma OperatorMunch(s: seq<Unit>, table: map<string, Option<SymbolInfo>>)
    ensures ScanOperator(s, table).NoMatch? <==>
      s == [] || !IsOperatorEntry(Lookup(table, TextOf(s[..1])))
    ensures ScanOperator(s, table).Match? ==>
      var e := ScanOperator(s, table).end;
      (e == |s| || !IsOperatorEntry(Lookup(table, TextOf(s[..e + 1])))) &&
      forall i | 0 < i <= e :: IsOperatorEntry(Lookup(table, TextOf(s[..i])))
  {
    OperatorEndMaximal(s, 0, table);
  }

  /**
   * A number needs a digit or a '.' to start; it is an INT_LITERAL exactly
   * when its text has no '.', and then its text is the leading digits.
   */
  lemma NumberShape(s: seq<Unit>)
    ensures ScanNumber(s).NoMatch? <==> !IsDigit(Head(s)) && Head(s) != '.' as int
    ensures ScanNumber(s).Match? ==>
      (ScanNumber(s).kind == INT_LITERAL <==> '.' !in ScanNumber(s).value)
    ensures ScanNumber(s).Match? && ScanNumber(s).kind == INT_LITERAL ==>
      forall i | 0 <= i < |ScanNumber(s).value| :: '0' <= ScanNumber(s).value[i] <= '9'
  {
    DigitsEndStopsAtNonDigit(s, 0);
    var d := DigitsEnd(s, 0);
    assert Head(s[d..]) == At(s, d);
    if d > 0 {
      assert Head(s) == s[0];
    }
    var lx := ScanNumber(s);
    if lx.Match? && lx.kind == INT_LITERAL {
      assert lx.value == TextOf(s[..d]);
      assert forall i | 0 <= i < |lx.value| :: lx.value[i] as int == s[i];
    } else if lx.Match? {
      var intPart := ScanDigits(s);
      var fraction := ScanDigits(s[d + 1..]);
      assert lx.value == DigitsOr0(intPart) + "." + DigitsOr0(fraction);
      assert lx.value[|DigitsOr0(intPart)|] == '.';
    }
  }

  // ---------------------------------------------------------------- helpers for the lexer's loops

  lemma NewLinesStep(s: seq<Unit>, k: nat)
    requires k < |s|
    ensures NewLines(s, 0, k + 1) == NewLines(s, 0, k) + (if s[k] == '\n' as int then 1 else 0)
  {
  }

  /** A lexeme's text grows by one character when it takes one more unit. */
  lemma TextOfSnoc(s: seq<Unit>, k: nat)
    requires k < |s|
    ensures TextOf(s[..k + 1]) == TextOf(s[..k]) + [CharOf(s[k])]
  {
    assert s[..k + 1] == s[..k] + [s[k]];
  }

  /** Skipping spaces a second time skips nothing. */
  lemma AfterSpacesTwice(s: seq<Unit>)
    ensures AfterSpaces(AfterSpaces(s)) == AfterSpaces(s)
    ensures NewLines(AfterSpaces(s), 0, SpaceEnd(AfterSpaces(s), 0)) == 0
  {
    assert AfterSpaces(s)[0..] == AfterSpaces(s);
  }

  /** The stream after the spaces: what the scanners see. */
  function AfterSpaces(s: seq<Unit>): (t: seq<Unit>)
    ensures SpaceEnd(t, 0) == 0 && NewLines(t, 0, 0) == 0
    ensures !IsSpace(Head(t))
  {
    var k := SpaceEnd(s, 0);
    SpaceEndSkipsSpaces(s, 0);
    assert Head(s[k..]) == At(s, k);
    s[k..]
  }

  /** Spaces are skipped the same way once the first unit is dropped. */
  lemma {:induction false} SpaceEndShift(s: seq<Unit>, i: nat)
    requires 1 <= i <= |s|
    ensures SpaceEnd(s, i) == SpaceEnd(s[1..], i - 1) + 1
    decreases |s| - i
  {
    if i < |s| && IsSpace(s[i]) {
      SpaceEndShift(s, i + 1);
    }
  }

  /** Line feeds are counted the same way once the first unit is dropped. */
  lemma {:induction false} NewLinesShift(s: seq<Unit>, n: nat)
    requires 1 <= n <= |s|
    ensures NewLines(s, 0, n) == NewLines(s[1..], 0, n - 1) + (if s[0] == '\n' as int then 1 else 0)
  {
    if n > 1 {
      NewLinesShift(s, n - 1);
    }
  }

  /** A leading space other than a line feed: one more space skipped, to the same place and on the same line. */
  lemma SpacesShift(s: seq<Unit>, line: int)
    requires s != [] && IsSpace(s[0]) && s[0] != '\n' as int
    ensures SpaceEnd(s, 0) == SpaceEnd(s[1..], 0) + 1
    ensures LineAfter(s, line) == LineAfter(s[1..], line)
    ensures s[SpaceEnd(s, 0)..] == s[1..][SpaceEnd(s[1..], 0)..]
  {
    var k := SpaceEnd(s, 0);
    SpaceEndShift(s, 1);
    NewLinesShift(s, k);
    assert s[k..] == s[1..][k - 1..];
  }

  /** A leading space other than a line feed: the step is the rest's, one unit longer, on the same line. */
  lemma NextTokenSkipsSpace(s: seq<Unit>, line: int, table: map<string, Option<SymbolInfo>>)
    requires s != [] && IsSpace(s[0]) && s[0] != '\n' as int
    ensures LineAfter(s, line) == LineAfter(s[1..], line)
    ensures NextToken(s, line, table) ==
      match NextToken(s[1..], line, table)
      case Emit(token, e) => Emit(token, e + 1)
      case step => step
  {
    SpacesShift(s, line);
  }

  /**
   * A leading space other than a line feed changes nothing: `getNextToken`
   * skips it and stays on the same line, so the stream lexes as the rest does.
   */
  lemma SpaceSkipped(s: seq<Unit>, line: int, table: map<string, Option<SymbolInfo>>)
    requires s != [] && IsSpace(s[0]) && s[0] != '\n' as int
    ensures Tokenize(s, line, table) == Tokenize(s[1..], line, table)
  {
    NextTokenSkipsSpace(s, line, table);
    if NextToken(s, line, table).Emit? {
      var e := NextToken(s, line, table).end;
      assert s[e..] == s[1..][e - 1..];
    }
  }
}
