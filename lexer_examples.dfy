/**
 * Worked examples of the lexical grammar on the lexeme table, taken from the
 * lexer's expected outputs: single lexemes first, then the two whole token
 * streams the lexer is expected to produce.
 */
module LexerExamples {
  import opened Wrappers
  import opened Exceptions
  import opened Tokens
  import opened Symbols
  import opened LexerTables
  import opened CharBuffers
  import opened Lexemes

  /** Printable ASCII and the ranges up to U+1680 hold no space. */
  lemma NotSpace(c: Code)
    requires 0x20 < c < 0x1680
    ensures !IsSpace(c)
  {
    forall i | 0 <= i < |SpaceRanges|
      ensures !(SpaceRanges[i].0 <= c <= SpaceRanges[i].1)
    {
      assert i in {0, 1, 2, 3, 4, 5, 6, 7};
    }
  }

  /** Without leading spaces the step is taken at the start, on the same line. */
  lemma NoLeadingSpace(s: seq<Unit>, line: int, table: map<string, Option<SymbolInfo>>)
    requires s != [] && !IsSpace(s[0])
    ensures NextToken(s, line, table) == TokenAt(s, line, table)
  {
    assert s[0..] == s;
  }

  // ---------------------------------------------------------------- one lexeme at a time

  /** The operator characters that no operator entry of two characters starts with. */
  predicate IsOneUnitOperator(c: char) {
    c == '+' || c == '-' || c == '*' || c == '/' || c == '(' || c == ')' || c == '='
  }

  /** The token type each one-unit operator's entry carries. */
  function OperatorKind(c: char): TokenType
    requires IsOneUnitOperator(c)
  {
    match c
    case '+' => ADD
    case '-' => SUB
    case '*' => MULT
    case '/' => DIV
    case '(' => LPAREN
    case ')' => RPAREN
    case _ => ASSIGNMENT
  }

  /**
   * A table in which every one-unit operator has an operator entry of its
   * token type and no operator entry of two characters starts with one.
   */
  ghost predicate OneUnitTable(table: map<string, Option<SymbolInfo>>) {
    && (forall c | IsOneUnitOperator(c) ::
          IsOperatorEntry(Lookup(table, [c])) && Lookup(table, [c]).value.tokenType == OperatorKind(c))
    && (forall c, d | IsOneUnitOperator(c) :: !IsOperatorEntry(Lookup(table, [c, d])))
  }

  /** The lexer's table is one: its only two-character operator entries are "&&" and "||" ("**" and "==" are null). */
  lemma ContentsOneUnit()
    ensures OneUnitTable(Contents)
  {
    forall c | IsOneUnitOperator(c)
      ensures IsOperatorEntry(Lookup(Contents, [c])) && Lookup(Contents, [c]).value.tokenType == OperatorKind(c)
    {
      OperatorLexemes([c]);
    }
    forall c, d | IsOneUnitOperator(c)
      ensures !IsOperatorEntry(Lookup(Contents, [c, d]))
    {
      OperatorLexemes([c, d]);
    }
  }

  /** In such a table a one-unit operator character is an operator lexeme of one unit, whatever follows it. */
  lemma OneUnitOperator(s: seq<Unit>, c: char, table: map<string, Option<SymbolInfo>>)
    requires OneUnitTable(table)
    requires s != [] && s[0] == c as int && IsOneUnitOperator(c)
    ensures ScanOperator(s, table) == Match([c], OperatorKind(c), 1)
  {
    assert TextOf(s[..1]) == [c];
    if |s| > 1 {
      var two := TextOf(s[..2]);
      assert two == [c, two[1]];
    }
    assert OperatorEnd(s, 1, table) == 1;
  }

  /** '*' is MULT whatever follows it, '*' (the null "**") and '.' (the "*." of the first stream) included. */
  lemma StarOperator(s: seq<Unit>)
    requires |s| > 0 && s[0] == '*' as int
    ensures ScanOperator(s, Contents) == Match("*", MULT, 1)
  {
    ContentsOneUnit();
    OneUnitOperator(s, '*', Contents);
  }

  /** A stream starting with a one-unit operator character lexes that operator first. */
  lemma OperatorToken(t: seq<Unit>, c: char, line: int, table: map<string, Option<SymbolInfo>>)
    requires OneUnitTable(table)
    requires t != [] && t[0] == c as int && IsOneUnitOperator(c)
    ensures TokenAt(t, line, table) == Emit(Token([c], OperatorKind(c), line), 1)
  {
    OneUnitOperator(t, c, table);
    assert ScanWord(t) == NoMatch;
    assert ScanNumber(t) == NoMatch by {
      assert DigitsEnd(t, 0) == 0;
    }
  }

  /** A stream starting with '*' lexes a MULT first, whatever follows. */
  lemma StarFirst(s: seq<Unit>)
    requires |s| > 0 && s[0] == '*' as int
    ensures NextToken(s, 1, Contents) == Emit(Token("*", MULT, 1), 1)
    ensures LineAfter(s, 1) == 1
  {
    NotSpace(s[0]);
    NoLeadingSpace(s, 1, Contents);
    ContentsOneUnit();
    OperatorToken(s, '*', 1, Contents);
  }

  /** Tokenizing a stream whose first step emits a token: that token, then the rest's tokens. */
  lemma TokenizeEmit(s: seq<Unit>, line: int, table: map<string, Option<SymbolInfo>>, token: Token, e: nat, rest: seq<Token>)
    requires NextToken(s, line, table) == Emit(token, e)
    requires Tokenize(s[e..], LineAfter(s, line), table) == Ok(rest)
    ensures Tokenize(s, line, table) == Ok([token] + rest)
  {
  }

  /** "**" has a null table entry, so the munch stops after one '*' and the stream lexes as two MULTs. */
  lemma PowerIsTwoMults(s: seq<Unit>)
    requires s == UnitsOf("**")
    ensures Tokenize(s, 1, Contents) == Ok([Token("*", MULT, 1), Token("*", MULT, 1)])
  {
    var t := s[1..];
    StarFirst(s);
    StarFirst(t);
    assert Tokenize(t[1..], 1, Contents) == Ok([]) by {
      assert t[1..] == [];
    }
    TokenizeEmit(t, 1, Contents, Token("*", MULT, 1), 1, []);
    assert [Token("*", MULT, 1)] + [] == [Token("*", MULT, 1)];
    TokenizeEmit(s, 1, Contents, Token("*", MULT, 1), 1, [Token("*", MULT, 1)]);
    assert [Token("*", MULT, 1)] + [Token("*", MULT, 1)] == [Token("*", MULT, 1), Token("*", MULT, 1)];
  }

  /** The word loop from k runs to n over letters, digits and '_', and stops at what ends a word. */
  lemma {:induction false} WordRun(t: seq<Unit>, k: nat, n: nat)
    requires k <= n <= |t|
    requires forall j | k <= j < n :: IsAlnumUnderscore(t[j])
    requires !IsAlnumUnderscore(At(t, n)) && (IsSeparator(At(t, n)) || IsSpecialChar(At(t, n)))
    ensures ScanWordFrom(t, k) == EndsAt(n)
    decreases n - k
  {
    if k < n {
      NotSpace(t[k]);
      WordRun(t, k + 1, n);
    }
  }

  /** A word of n units, ended by a separator or a special character, is the step, typed by the table. */
  lemma WordToken(t: seq<Unit>, n: nat, line: int, table: map<string, Option<SymbolInfo>>)
    requires 0 < n <= |t| && (IsAlphabetic(t[0]) || t[0] == '_' as int)
    requires forall j | 0 <= j < n :: IsAlnumUnderscore(t[j])
    requires !IsAlnumUnderscore(At(t, n)) && (IsSeparator(At(t, n)) || IsSpecialChar(At(t, n)))
    ensures TokenAt(t, line, table) == Emit(Token(TextOf(t[..n]), WordType(TextOf(t[..n]), table), line), n)
  {
    WordRun(t, 0, n);
  }

  lemma TrueWord()
    ensures ScanWord(UnitsOf("true;")) == Match("true", UNKNOWN, 4)
  {
    var s := UnitsOf("true;");
    assert ScanWordFrom(s, 4) == EndsAt(4);
    assert ScanWordFrom(s, 0) == EndsAt(4);
    assert TextOf(s[..4]) == "true";
  }

  /** "true" has a null table entry, so it lexes as a variable name. */
  lemma TrueIsVar()
    ensures NextToken(UnitsOf("true;"), 1, Contents) == Emit(Token("true", VAR, 1), 4)
  {
    var s := UnitsOf("true;");
    NotSpace(s[0]);
    NoLeadingSpace(s, 1, Contents);
    TrueWord();
    NullEntriesLookUnknown();
  }

  /** A stream starting with "var" and a blank (the declaration that begins the second expected stream, without its leading blanks). */
  lemma VarWord(s: seq<Unit>)
    requires |s| > 3 && s[0] == 'v' as int && s[1] == 'a' as int && s[2] == 'r' as int && IsBlank(s[3])
    ensures ScanWord(s) == Match("var", UNKNOWN, 3)
  {
    assert IsSpace(s[3]) by {
      assert SpaceRanges[0].0 <= s[3] <= SpaceRanges[0].1 || SpaceRanges[1].0 <= s[3] <= SpaceRanges[1].1;
    }
    assert ScanWordFrom(s, 3) == EndsAt(3);
    assert ScanWordFrom(s, 2) == EndsAt(3);
    assert ScanWordFrom(s, 1) == EndsAt(3);
    assert ScanWordFrom(s, 0) == EndsAt(3);
    assert TextOf(s[..3]) == "var";
  }

  /** "var" is the mutable-declaration keyword. */
  lemma VarIsKeyword(s: seq<Unit>)
    requires |s| > 3 && s[0] == 'v' as int && s[1] == 'a' as int && s[2] == 'r' as int && s[3] == ' ' as int
    ensures NextToken(s, 1, Contents) == Emit(Token("var", MUTABLE_ID_DECL, 1), 3)
  {
    NotSpace(s[0]);
    NoLeadingSpace(s, 1, Contents);
    VarWord(s);
  }

  /** A run of digits from j to k, stopped by a non-digit. */
  lemma {:induction false} DigitRun(t: seq<Unit>, j: nat, k: nat)
    requires j <= k <= |t|
    requires forall i | j <= i < k :: IsDigit(t[i])
    requires !IsDigit(At(t, k))
    ensures DigitsEnd(t, j) == k
    decreases k - j
  {
    if j < k {
      DigitRun(t, j + 1, k);
    }
  }

  /** A stream starting with a number lexes that number first. */
  lemma NumberToken(t: seq<Unit>, line: int, table: map<string, Option<SymbolInfo>>)
    requires t != [] && (IsDigit(t[0]) || t[0] == '.' as int)
    requires ScanScientific(t).Match?
    ensures TokenAt(t, line, table) ==
      Emit(Token(ScanScientific(t).value, ScanScientific(t).kind, line), ScanScientific(t).end)
  {
    assert ScanWord(t) == NoMatch;
  }

  /** A '.' with no digits around it is the number "0.0". */
  lemma LoneDot(s: seq<Unit>)
    requires |s| > 0 && s[0] == '.' as int && !IsDigit(At(s, 1))
    ensures ScanNumber(s) == Match("0.0", FLOAT_LITERAL, 1)
  {
    assert DigitsEnd(s, 0) == 0;
    assert s[0..][..1] == ['.' as int];
    assert DigitsEnd(s[1..], 0) == 0 by {
      assert At(s[1..], 0) == At(s, 1);
    }
  }

  /** "." at the end of the stream, as the first stream ends: "0.0". */
  lemma FinalDot(s: seq<Unit>)
    requires |s| == 1 && s[0] == '.' as int
    ensures ScanScientific(s) == Match("0.0", FLOAT_LITERAL, 1)
  {
    LoneDot(s);
    assert s[1..] == [];
  }

  /** ".e." defaults every part: "0.0e0.0" (here ended by ')', as in the first stream). */
  lemma DotEDot(s: seq<Unit>)
    requires |s| > 3 && s[0] == '.' as int && s[1] == 'e' as int && s[2] == '.' as int && s[3] == ')' as int
    ensures ScanScientific(s) == Match("0.0e0.0", FLOAT_LITERAL, 3)
  {
    LoneDot(s);
    assert s[1..][..1] == ['e' as int];
    assert ScanSign(s[2..]) == NoMatch by {
      assert s[2..][0] == '.' as int;
    }
    LoneDot(s[2..]);
  }

  /** "25." takes a defaulted fraction: "25.0", ended by the ')' after it. */
  lemma TrailingDot(s: seq<Unit>)
    requires |s| > 3 && s[0] == '2' as int && s[1] == '5' as int && s[2] == '.' as int && s[3] == ')' as int
    ensures ScanScientific(s) == Match("25.0", FLOAT_LITERAL, 3)
  {
    DigitRun(s, 0, 2);
    assert TextOf(s[..2]) == "25";
    assert s[2..][..1] == ['.' as int];
    assert DigitsEnd(s[3..], 0) == 0;
    assert ScanNumber(s) == Match("25.0", FLOAT_LITERAL, 3);
    assert s[3..][..1] == [')' as int];
    assert EndsNumber(Head(s[3..]));
  }

  /** "1a": a number followed by a letter is an invalid numeric expression. */
  lemma NumberThenLetter(s: seq<Unit>)
    requires s == UnitsOf("1a")
    ensures ScanScientific(s) == Failure(InvalidNumericExpression)
  {
    assert DigitsEnd(s, 0) == 1;
    assert ScanNumber(s) == Match("1", INT_LITERAL, 1) by {
      assert TextOf(s[..1]) == "1";
      assert s[1..][..1] == ['a' as int];
    }
    assert Head(s[1..]) == 'a' as int;
    assert !IsSpecialChar('a' as int);
    NotSpace('a' as int);
  }

  /** ".e+.5": a signed exponent keeps its sign, "0.0e+0.5" (here ended by a blank, as in the second stream). */
  lemma SignedExponent(s: seq<Unit>)
    requires |s| > 5 && s[0] == '.' as int && s[1] == 'e' as int && s[2] == '+' as int && s[3] == '.' as int && s[4] == '5' as int && s[5] == ' ' as int
    ensures ScanScientific(s) == Match("0.0e+0.5", FLOAT_LITERAL, 5)
  {
    LoneDot(s);
    assert s[1..][..1] == ['e' as int];
    assert ScanSign(s[2..]) == Match("+", UNKNOWN, 1) by {
      assert s[2..][0] == '+' as int;
    }
    var x := s[3..];
    assert DigitsEnd(x, 0) == 0;
    assert x[0..][..1] == ['.' as int];
    DigitRun(x[1..], 0, 1);
    assert TextOf(x[1..][..1]) == "5";
    assert ScanNumber(x) == Match("0.5", FLOAT_LITERAL, 2);
  }

  /** "71e3": an exponent makes even an integer mantissa a FLOAT_LITERAL (here followed by '*'). */
  lemma IntegerWithExponent(s: seq<Unit>)
    requires |s| > 4 && s[0] == '7' as int && s[1] == '1' as int && s[2] == 'e' as int && s[3] == '3' as int && s[4] == '*' as int
    ensures ScanScientific(s) == Match("71e3", FLOAT_LITERAL, 4)
  {
    DigitRun(s, 0, 2);
    assert TextOf(s[..2]) == "71";
    assert s[2..][..1] == ['e' as int];
    assert ScanNumber(s) == Match("71", INT_LITERAL, 2);
    assert ScanSign(s[3..]) == NoMatch by {
      assert s[3..][0] == '3' as int;
    }
    var x := s[3..];
    DigitRun(x, 0, 1);
    assert TextOf(x[..1]) == "3";
    assert x[1..][..1] == ['*' as int];
    assert ScanNumber(x) == Match("3", INT_LITERAL, 1);
  }

  /** Two digits ended by '+' or ')' ("52+" and "21)" in the streams): an INT_LITERAL of those two digits. */
  lemma TwoDigitInteger(s: seq<Unit>, tens: char, units: char, follower: char)
    requires '0' <= tens <= '9' && '0' <= units <= '9' && (follower == '+' || follower == ')')
    requires |s| > 2 && s[0] == tens as int && s[1] == units as int && s[2] == follower as int
    ensures ScanScientific(s) == Match([tens, units], INT_LITERAL, 2)
  {
    DigitRun(s, 0, 2);
    assert TextOf(s[..2]) == [tens, units];
    assert s[2..][..1] == [follower as int];
    assert Head(s[2..]) == follower as int;
  }

  /** "32.4", ended by '-': both parts given. */
  lemma FullDecimal(s: seq<Unit>)
    requires |s| > 4 && s[0] == '3' as int && s[1] == '2' as int && s[2] == '.' as int && s[3] == '4' as int && s[4] == '-' as int
    ensures ScanScientific(s) == Match("32.4", FLOAT_LITERAL, 4)
  {
    DigitRun(s, 0, 2);
    assert TextOf(s[..2]) == "32";
    assert s[2..][..1] == ['.' as int];
    DigitRun(s[3..], 0, 1);
    assert TextOf(s[3..][..1]) == "4";
    assert ScanNumber(s) == Match("32.4", FLOAT_LITERAL, 4);
    assert s[4..][..1] == ['-' as int];
    assert Head(s[4..]) == '-' as int;
  }

  /** ".9", ended by '*': a defaulted integer part, "0.9". */
  lemma LeadingDot(s: seq<Unit>)
    requires |s| > 2 && s[0] == '.' as int && s[1] == '9' as int && s[2] == '*' as int
    ensures ScanScientific(s) == Match("0.9", FLOAT_LITERAL, 2)
  {
    assert DigitsEnd(s, 0) == 0;
    assert s[0..][..1] == ['.' as int];
    DigitRun(s[1..], 0, 1);
    assert TextOf(s[1..][..1]) == "9";
    assert ScanNumber(s) == Match("0.9", FLOAT_LITERAL, 2);
    assert s[2..][..1] == ['*' as int];
    assert Head(s[2..]) == '*' as int;
  }

  /** "67.", ended by '+': "67.0". */
  lemma TrailingDotBeforeOperator(s: seq<Unit>)
    requires |s| > 3 && s[0] == '6' as int && s[1] == '7' as int && s[2] == '.' as int && s[3] == '+' as int
    ensures ScanScientific(s) == Match("67.0", FLOAT_LITERAL, 3)
  {
    DigitRun(s, 0, 2);
    assert TextOf(s[..2]) == "67";
    assert s[2..][..1] == ['.' as int];
    assert DigitsEnd(s[3..], 0) == 0;
    assert ScanNumber(s) == Match("67.0", FLOAT_LITERAL, 3);
    assert s[3..][..1] == ['+' as int];
    assert Head(s[3..]) == '+' as int;
  }

  /** "2.e-1": a defaulted fraction and a negative exponent, "2.0e-1" (here followed by '-'). */
  lemma NegativeExponent(s: seq<Unit>)
    requires |s| > 5 && s[0] == '2' as int && s[1] == '.' as int && s[2] == 'e' as int && s[3] == '-' as int && s[4] == '1' as int && s[5] == '-' as int
    ensures ScanScientific(s) == Match("2.0e-1", FLOAT_LITERAL, 5)
  {
    DigitRun(s, 0, 1);
    assert TextOf(s[..1]) == "2";
    assert s[1..][..1] == ['.' as int];
    assert DigitsEnd(s[2..], 0) == 0;
    assert ScanNumber(s) == Match("2.0", FLOAT_LITERAL, 2);
    assert s[2..][..1] == ['e' as int];
    assert ScanSign(s[3..]) == Match("-", UNKNOWN, 1) by {
      assert s[3..][..1] == ['-' as int];
    }
    var x := s[4..];
    DigitRun(x, 0, 1);
    assert TextOf(x[..1]) == "1";
    assert x[1..][..1] == ['-' as int];
    assert ScanNumber(x) == Match("1", INT_LITERAL, 1);
  }

  // ---------------------------------------------------------------- whole streams

  /** The blanks of the expected streams: ' ' and TAB. */
  predicate IsBlank(u: Unit) {
    u == ' ' as int || u == '\t' as int
  }

  /** A blank inside a stream on line 1 is skipped: the stream from k lexes as the stream from k + 1. */
  lemma BlankStep(s: seq<Unit>, k: nat, table: map<string, Option<SymbolInfo>>, ts: seq<Token>)
    requires k < |s| && IsBlank(s[k])
    requires Tokenize(s[k + 1..], 1, table) == Ok(ts)
    ensures Tokenize(s[k..], 1, table) == Ok(ts)
  {
    assert SpaceRanges[0].0 <= s[k] <= SpaceRanges[0].1 || SpaceRanges[1].0 <= s[k] <= SpaceRanges[1].1;
    SpaceSkipped(s[k..], 1, table);
    assert s[k..][1..] == s[k + 1..];
  }

  /**
   * One step of the lexer inside a stream on line 1: the token ts[i] of e
   * units at k; the stream from k lexes as ts[i..] when the rest lexes as
   * ts[i + 1..].
   */
  lemma Emitted(s: seq<Unit>, k: nat, e: nat, table: map<string, Option<SymbolInfo>>, ts: seq<Token>, i: nat)
    requires 0 < e && k + e <= |s| && i < |ts|
    requires !IsSpace(s[k])
    requires TokenAt(s[k..], 1, table) == Emit(ts[i], e)
    requires Tokenize(s[k + e..], 1, table) == Ok(ts[i + 1..])
    ensures Tokenize(s[k..], 1, table) == Ok(ts[i..])
  {
    var t := s[k..];
    NoLeadingSpace(t, 1, table);
    assert LineAfter(t, 1) == 1;
    assert t[e..] == s[k + e..];
    assert [ts[i]] + ts[i + 1..] == ts[i..];
    TokenizeEmit(t, 1, table, ts[i], e, ts[i + 1..]);
  }

  /** The end of a stream: nothing more is lexed. */
  lemma StreamEnd(s: seq<Unit>, table: map<string, Option<SymbolInfo>>, ts: seq<Token>)
    requires ts == []
    ensures Tokenize(s[|s|..], 1, table) == Ok(ts)
  {
    assert s[|s|..] == [];
  }

  /**
   * What the two streams below need of a table: the one-unit operators,
   * "var" as the keyword of a mutable declaration, no entry for "a" or "b".
   */
  ghost predicate StreamTable(table: map<string, Option<SymbolInfo>>) {
    OneUnitTable(table) && WordType("var", table) == MUTABLE_ID_DECL
    && Lookup(table, "a") == None && Lookup(table, "b") == None
  }

  /** The lexer's table has "var" as a declaration keyword and nothing for "a" or "b". */
  lemma ContentsWords()
    ensures WordType("var", Contents) == MUTABLE_ID_DECL
    ensures Lookup(Contents, "a") == None && Lookup(Contents, "b") == None
  {
  }

  /** The lexer's table serves both streams. */
  lemma ContentsServesStreams()
    ensures StreamTable(Contents)
  {
    ContentsOneUnit();
    ContentsWords();
  }

  /** The one-letter names of the second stream are letters. */
  lemma NameLetters()
    ensures IsAlphabetic('a' as int) && IsAlphabetic('b' as int)
  {
  }

  /** A one-letter name with no table entry, ended by a blank or a one-unit operator, lexes as a VAR. */
  lemma LetterToken(t: seq<Unit>, c: char, d: char, table: map<string, Option<SymbolInfo>>)
    requires 1 < |t| && t[0] == c as int && IsAlphabetic(c as int) && Lookup(table, [c]) == None
    requires t[1] == d as int && (d == ' ' || IsOneUnitOperator(d))
    ensures TokenAt(t, 1, table) == Emit(Token([c], VAR, 1), 1)
  {
    assert At(t, 1) == d as int;
    assert IsSeparator(At(t, 1)) || IsSpecialChar(At(t, 1)) by {
      if d == ' ' {
        assert SpaceRanges[1].0 <= At(t, 1) <= SpaceRanges[1].1;
      } else {
        assert CharOf(At(t, 1)) == d;
      }
    }
    WordToken(t, 1, 1, table);
    assert TextOf(t[..1]) == [c];
  }

  /** The declaration keyword step: "var" at k, ended by a blank. */
  lemma VarStep(s: seq<Unit>, k: nat, table: map<string, Option<SymbolInfo>>, ts: seq<Token>, i: nat)
    requires WordType("var", table) == MUTABLE_ID_DECL
    requires k + 3 < |s| && i < |ts|
    requires s[k] == 'v' as int && s[k + 1] == 'a' as int && s[k + 2] == 'r' as int && IsBlank(s[k + 3])
    requires ts[i] == Token("var", MUTABLE_ID_DECL, 1)
    requires Tokenize(s[k + 3..], 1, table) == Ok(ts[i + 1..])
    ensures Tokenize(s[k..], 1, table) == Ok(ts[i..])
  {
    var t := s[k..];
    NotSpace(t[0]);
    VarWord(t);
    assert TokenAt(t, 1, table) == Emit(Token("var", MUTABLE_ID_DECL, 1), 3);
    Emitted(s, k, 3, table, ts, i);
  }

  // ---------------------------------------------------------------- expected streams

  /** The input of `testLexerValid1`. */
  const FirstInput: string := "52+-(-25.)-(32.4-+.e.)/.9*."

  /** The tokens `testLexerValid1` expects, each built by the two-argument constructor (so on line 1), in pieces. */
  const FirstTokens: seq<Token> := [
    Token("52", INT_LITERAL, 1), Token("+", ADD, 1), Token("-", SUB, 1), Token("(", LPAREN, 1),
    Token("-", SUB, 1), Token("25.0", FLOAT_LITERAL, 1), Token(")", RPAREN, 1), Token("-", SUB, 1),
    Token("(", LPAREN, 1)] + [Token("32.4", FLOAT_LITERAL, 1), Token("-", SUB, 1), Token("+", ADD, 1),
    Token("0.0e0.0", FLOAT_LITERAL, 1), Token(")", RPAREN, 1), Token("/", DIV, 1),
    Token("0.9", FLOAT_LITERAL, 1), Token("*", MULT, 1), Token("0.0", FLOAT_LITERAL, 1)]

  /** The input of `testLexerValid2`: blanks are spaces and tabs (one literal, written in three pieces). */
  const SecondInput: string := "  var b=b +\t-.e+.5 " + "*  a/a  *((2.e-1-" + "67.+71e3*21)))\t"

  /** The tokens `testLexerValid2` expects, each built by the two-argument constructor (so on line 1), in pieces. */
  const SecondTokens: seq<Token> := [
    Token("var", MUTABLE_ID_DECL, 1), Token("b", VAR, 1), Token("=", ASSIGNMENT, 1), Token("b", VAR, 1),
    Token("+", ADD, 1), Token("-", SUB, 1), Token("0.0e+0.5", FLOAT_LITERAL, 1), Token("*", MULT, 1)] + [
    Token("a", VAR, 1), Token("/", DIV, 1), Token("a", VAR, 1), Token("*", MULT, 1),
    Token("(", LPAREN, 1), Token("(", LPAREN, 1)] + [Token("2.0e-1", FLOAT_LITERAL, 1), Token("-", SUB, 1),
    Token("67.0", FLOAT_LITERAL, 1), Token("+", ADD, 1), Token("71e3", FLOAT_LITERAL, 1), Token("*", MULT, 1),
    Token("21", INT_LITERAL, 1), Token(")", RPAREN, 1), Token(")", RPAREN, 1), Token(")", RPAREN, 1)]

  /** The units of the first input, one by one. */
  lemma FirstUnits(s: seq<Unit>)
    requires s == UnitsOf(FirstInput)
    ensures |s| == 27
    ensures s[0] == '5' as int && s[1] == '2' as int && s[2] == '+' as int && s[3] == '-' as int && s[4] == '(' as int
    ensures s[5] == '-' as int && s[6] == '2' as int && s[7] == '5' as int && s[8] == '.' as int && s[9] == ')' as int
    ensures s[10] == '-' as int && s[11] == '(' as int && s[12] == '3' as int && s[13] == '2' as int && s[14] == '.' as int
    ensures s[15] == '4' as int && s[16] == '-' as int && s[17] == '+' as int && s[18] == '.' as int && s[19] == 'e' as int
    ensures s[20] == '.' as int && s[21] == ')' as int && s[22] == '/' as int && s[23] == '.' as int && s[24] == '9' as int
    ensures s[25] == '*' as int && s[26] == '.' as int
  {
  }

  /** The expected tokens of the first stream, one by one. */
  lemma FirstTokensAt(ts: seq<Token>)
    requires ts == FirstTokens
    ensures |ts| == 18 && ts[0] == Token("52", INT_LITERAL, 1) && ts[1] == Token("+", ADD, 1)
    ensures ts[2] == Token("-", SUB, 1) && ts[3] == Token("(", LPAREN, 1) && ts[4] == Token("-", SUB, 1)
    ensures ts[5] == Token("25.0", FLOAT_LITERAL, 1) && ts[6] == Token(")", RPAREN, 1) && ts[7] == Token("-", SUB, 1)
    ensures ts[8] == Token("(", LPAREN, 1) && ts[9] == Token("32.4", FLOAT_LITERAL, 1) && ts[10] == Token("-", SUB, 1)
    ensures ts[11] == Token("+", ADD, 1) && ts[12] == Token("0.0e0.0", FLOAT_LITERAL, 1) && ts[13] == Token(")", RPAREN, 1)
    ensures ts[14] == Token("/", DIV, 1) && ts[15] == Token("0.9", FLOAT_LITERAL, 1) && ts[16] == Token("*", MULT, 1)
    ensures ts[17] == Token("0.0", FLOAT_LITERAL, 1)
  {
  }

  /** The first stream at position 0: "52" is token 0. */
  lemma FirstToken0(s: seq<Unit>, table: map<string, Option<SymbolInfo>>)
    requires |s| == 27 && s[0] == '5' as int && s[1] == '2' as int
    requires s[2] == '+' as int
    ensures !IsSpace(s[0]) && TokenAt(s, 1, table) == Emit(Token("52", INT_LITERAL, 1), 2)
  {
    NotSpace(s[0]);
    TwoDigitInteger(s, '5', '2', '+');
    NumberToken(s, 1, table);
  }

  /** The first stream at position 2: "+" is token 1. */
  lemma FirstToken2(s: seq<Unit>, table: map<string, Option<SymbolInfo>>)
    requires |s| == 27 && OneUnitTable(table) && s[2] == '+' as int
    ensures !IsSpace(s[2]) && TokenAt(s[2..], 1, table) == Emit(Token("+", ADD, 1), 1)
  {
    NotSpace(s[2]);
    OperatorToken(s[2..], '+', 1, table);
  }

  /** The first stream at position 3: "-" is token 2. */
  lemma FirstToken3(s: seq<Unit>, table: map<string, Option<SymbolInfo>>)
    requires |s| == 27 && OneUnitTable(table) && s[3] == '-' as int
    ensures !IsSpace(s[3]) && TokenAt(s[3..], 1, table) == Emit(Token("-", SUB, 1), 1)
  {
    NotSpace(s[3]);
    OperatorToken(s[3..], '-', 1, table);
  }

  /** The first stream at position 4: "(" is token 3. */
  lemma FirstToken4(s: seq<Unit>, table: map<string, Option<SymbolInfo>>)
    requires |s| == 27 && OneUnitTable(table) && s[4] == '(' as int
    ensures !IsSpace(s[4]) && TokenAt(s[4..], 1, table) == Emit(Token("(", LPAREN, 1), 1)
  {
    NotSpace(s[4]);
    OperatorToken(s[4..], '(', 1, table);
  }

  /** The first stream at position 5: "-" is token 4. */
  lemma FirstToken5(s: seq<Unit>, table: map<string, Option<SymbolInfo>>)
    requires |s| == 27 && OneUnitTable(table) && s[5] == '-' as int
    ensures !IsSpace(s[5]) && TokenAt(s[5..], 1, table) == Emit(Token("-", SUB, 1), 1)
  {
    NotSpace(s[5]);
    OperatorToken(s[5..], '-', 1, table);
  }

  /** The first stream at position 6: "25." is token 5. */
  lemma FirstToken6(s: seq<Unit>, table: map<string, Option<SymbolInfo>>)
    requires |s| == 27 && s[6] == '2' as int && s[7] == '5' as int
    requires s[8] == '.' as int && s[9] == ')' as int
    ensures !IsSpace(s[6]) && TokenAt(s[6..], 1, table) == Emit(Token("25.0", FLOAT_LITERAL, 1), 3)
  {
    NotSpace(s[6]);
    TrailingDot(s[6..]);
    NumberToken(s[6..], 1, table);
  }

  /** The first stream at position 9: ")" is token 6. */
  lemma FirstToken9(s: seq<Unit>, table: map<string, Option<SymbolInfo>>)
    requires |s| == 27 && OneUnitTable(table) && s[9] == ')' as int
    ensures !IsSpace(s[9]) && TokenAt(s[9..], 1, table) == Emit(Token(")", RPAREN, 1), 1)
  {
    NotSpace(s[9]);
    OperatorToken(s[9..], ')', 1, table);
  }

  /** The first stream at position 10: "-" is token 7. */
  lemma FirstToken10(s: seq<Unit>, table: map<string, Option<SymbolInfo>>)
    requires |s| == 27 && OneUnitTable(table) && s[10] == '-' as int
    ensures !IsSpace(s[10]) && TokenAt(s[10..], 1, table) == Emit(Token("-", SUB, 1), 1)
  {
    NotSpace(s[10]);
    OperatorToken(s[10..], '-', 1, table);
  }

  /** The first stream at position 11: "(" is token 8. */
  lemma FirstToken11(s: seq<Unit>, table: map<string, Option<SymbolInfo>>)
    requires |s| == 27 && OneUnitTable(table) && s[11] == '(' as int
    ensures !IsSpace(s[11]) && TokenAt(s[11..], 1, table) == Emit(Token("(", LPAREN, 1), 1)
  {
    NotSpace(s[11]);
    OperatorToken(s[11..], '(', 1, table);
  }

  /** The first stream at position 12: "32.4" is token 9. */
  lemma FirstToken12(s: seq<Unit>, table: map<string, Option<SymbolInfo>>)
    requires |s| == 27 && s[12] == '3' as int && s[13] == '2' as int
    requires s[14] == '.' as int && s[15] == '4' as int && s[16] == '-' as int
    ensures !IsSpace(s[12]) && TokenAt(s[12..], 1, table) == Emit(Token("32.4", FLOAT_LITERAL, 1), 4)
  {
    NotSpace(s[12]);
    FullDecimal(s[12..]);
    NumberToken(s[12..], 1, table);
  }

  /** The first stream at position 16: "-" is token 10. */
  lemma FirstToken16(s: seq<Unit>, table: map<string, Option<SymbolInfo>>)
    requires |s| == 27 && OneUnitTable(table) && s[16] == '-' as int
    ensures !IsSpace(s[16]) && TokenAt(s[16..], 1, table) == Emit(Token("-", SUB, 1), 1)
  {
    NotSpace(s[16]);
    OperatorToken(s[16..], '-', 1, table);
  }

  /** The first stream at position 17: "+" is token 11. */
  lemma FirstToken17(s: seq<Unit>, table: map<string, Option<SymbolInfo>>)
    requires |s| == 27 && OneUnitTable(table) && s[17] == '+' as int
    ensures !IsSpace(s[17]) && TokenAt(s[17..], 1, table) == Emit(Token("+", ADD, 1), 1)
  {
    NotSpace(s[17]);
    OperatorToken(s[17..], '+', 1, table);
  }

  /** The first stream at position 18: ".e." is token 12. */
  lemma FirstToken18(s: seq<Unit>, table: map<string, Option<SymbolInfo>>)
    requires |s| == 27 && s[18] == '.' as int && s[19] == 'e' as int
    requires s[20] == '.' as int && s[21] == ')' as int
    ensures !IsSpace(s[18]) && TokenAt(s[18..], 1, table) == Emit(Token("0.0e0.0", FLOAT_LITERAL, 1), 3)
  {
    NotSpace(s[18]);
    DotEDot(s[18..]);
    NumberToken(s[18..], 1, table);
  }

  /** The first stream at position 21: ")" is token 13. */
  lemma FirstToken21(s: seq<Unit>, table: map<string, Option<SymbolInfo>>)
    requires |s| == 27 && OneUnitTable(table) && s[21] == ')' as int
    ensures !IsSpace(s[21]) && TokenAt(s[21..], 1, table) == Emit(Token(")", RPAREN, 1), 1)
  {
    NotSpace(s[21]);
    OperatorToken(s[21..], ')', 1, table);
  }

  /** The first stream at position 22: "/" is token 14. */
  lemma FirstToken22(s: seq<Unit>, table: map<string, Option<SymbolInfo>>)
    requires |s| == 27 && OneUnitTable(table) && s[22] == '/' as int
    ensures !IsSpace(s[22]) && TokenAt(s[22..], 1, table) == Emit(Token("/", DIV, 1), 1)
  {
    NotSpace(s[22]);
    OperatorToken(s[22..], '/', 1, table);
  }

  /** The first stream at position 23: ".9" is token 15. */
  lemma FirstToken23(s: seq<Unit>, table: map<string, Option<SymbolInfo>>)
    requires |s| == 27 && s[23] == '.' as int && s[24] == '9' as int
    requires s[25] == '*' as int
    ensures !IsSpace(s[23]) && TokenAt(s[23..], 1, table) == Emit(Token("0.9", FLOAT_LITERAL, 1), 2)
  {
    NotSpace(s[23]);
    LeadingDot(s[23..]);
    NumberToken(s[23..], 1, table);
  }

  /** The first stream at position 25: "*" is token 16. */
  lemma FirstToken25(s: seq<Unit>, table: map<string, Option<SymbolInfo>>)
    requires |s| == 27 && OneUnitTable(table) && s[25] == '*' as int
    ensures !IsSpace(s[25]) && TokenAt(s[25..], 1, table) == Emit(Token("*", MULT, 1), 1)
  {
    NotSpace(s[25]);
    OperatorToken(s[25..], '*', 1, table);
  }

  /** The first stream at position 26: "." is token 17. */
  lemma FirstToken26(s: seq<Unit>, table: map<string, Option<SymbolInfo>>)
    requires |s| == 27 && s[26] == '.' as int
    ensures !IsSpace(s[26]) && TokenAt(s[26..], 1, table) == Emit(Token("0.0", FLOAT_LITERAL, 1), 1)
  {
    NotSpace(s[26]);
    FinalDot(s[26..]);
    NumberToken(s[26..], 1, table);
  }

  /** The first stream from position 0, "52", then the rest. */
  lemma FirstFrom0(s: seq<Unit>, ts: seq<Token>, table: map<string, Option<SymbolInfo>>)
    requires |s| == 27 && s[0] == '5' as int && s[1] == '2' as int && s[2] == '+' as int
    requires |ts| == 18 && ts[0] == Token("52", INT_LITERAL, 1)
    requires Tokenize(s[2..], 1, table) == Ok(ts[1..])
    ensures Tokenize(s, 1, table) == Ok(ts)
  {
    FirstToken0(s, table);
    NoLeadingSpace(s, 1, table);
    assert [ts[0]] + ts[1..] == ts;
    TokenizeEmit(s, 1, table, ts[0], 2, ts[1..]);
  }

  /** The first stream from position 2, "+", then the rest. */
  lemma FirstFrom2(s: seq<Unit>, ts: seq<Token>, table: map<string, Option<SymbolInfo>>)
    requires |s| == 27 && s[2] == '+' as int && s[3] == '-' as int && OneUnitTable(table)
    requires |ts| == 18 && ts[1] == Token("+", ADD, 1)
    requires Tokenize(s[3..], 1, table) == Ok(ts[2..])
    ensures Tokenize(s[2..], 1, table) == Ok(ts[1..])
  {
    FirstToken2(s, table);
    Emitted(s, 2, 1, table, ts, 1);
  }

  /** The first stream from position 3, "-", then the rest. */
  lemma FirstFrom3(s: seq<Unit>, ts: seq<Token>, table: map<string, Option<SymbolInfo>>)
    requires |s| == 27 && s[3] == '-' as int && s[4] == '(' as int && OneUnitTable(table)
    requires |ts| == 18 && ts[2] == Token("-", SUB, 1)
    requires Tokenize(s[4..], 1, table) == Ok(ts[3..])
    ensures Tokenize(s[3..], 1, table) == Ok(ts[2..])
  {
    FirstToken3(s, table);
    Emitted(s, 3, 1, table, ts, 2);
  }

  /** The first stream from position 4, "(", then the rest. */
  lemma FirstFrom4(s: seq<Unit>, ts: seq<Token>, table: map<string, Option<SymbolInfo>>)
    requires |s| == 27 && s[4] == '(' as int && s[5] == '-' as int && OneUnitTable(table)
    requires |ts| == 18 && ts[3] == Token("(", LPAREN, 1)
    requires Tokenize(s[5..], 1, table) == Ok(ts[4..])
    ensures Tokenize(s[4..], 1, table) == Ok(ts[3..])
  {
    FirstToken4(s, table);
    Emitted(s, 4, 1, table, ts, 3);
  }

  /** The first stream from position 5, "-", then the rest. */
  lemma FirstFrom5(s: seq<Unit>, ts: seq<Token>, table: map<string, Option<SymbolInfo>>)
    requires |s| == 27 && s[5] == '-' as int && s[6] == '2' as int && OneUnitTable(table)
    requires |ts| == 18 && ts[4] == Token("-", SUB, 1)
    requires Tokenize(s[6..], 1, table) == Ok(ts[5..])
    ensures Tokenize(s[5..], 1, table) == Ok(ts[4..])
  {
    FirstToken5(s, table);
    Emitted(s, 5, 1, table, ts, 4);
  }

  /** The first stream from position 6, "25.", then the rest. */
  lemma FirstFrom6(s: seq<Unit>, ts: seq<Token>, table: map<string, Option<SymbolInfo>>)
    requires |s| == 27 && s[6] == '2' as int && s[7] == '5' as int && s[8] == '.' as int
    requires s[9] == ')' as int && |ts| == 18 && ts[5] == Token("25.0", FLOAT_LITERAL, 1)
    requires Tokenize(s[9..], 1, table) == Ok(ts[6..])
    ensures Tokenize(s[6..], 1, table) == Ok(ts[5..])
  {
    FirstToken6(s, table);
    Emitted(s, 6, 3, table, ts, 5);
  }

  /** The first stream from position 9, ")", then the rest. */
  lemma FirstFrom9(s: seq<Unit>, ts: seq<Token>, table: map<string, Option<SymbolInfo>>)
    requires |s| == 27 && s[9] == ')' as int && s[10] == '-' as int && OneUnitTable(table)
    requires |ts| == 18 && ts[6] == Token(")", RPAREN, 1)
    requires Tokenize(s[10..], 1, table) == Ok(ts[7..])
    ensures Tokenize(s[9..], 1, table) == Ok(ts[6..])
  {
    FirstToken9(s, table);
    Emitted(s, 9, 1, table, ts, 6);
  }

  /** The first stream from position 10, "-", then the rest. */
  lemma FirstFrom10(s: seq<Unit>, ts: seq<Token>, table: map<string, Option<SymbolInfo>>)
    requires |s| == 27 && s[10] == '-' as int && s[11] == '(' as int && OneUnitTable(table)
    requires |ts| == 18 && ts[7] == Token("-", SUB, 1)
    requires Tokenize(s[11..], 1, table) == Ok(ts[8..])
    ensures Tokenize(s[10..], 1, table) == Ok(ts[7..])
  {
    FirstToken10(s, table);
    Emitted(s, 10, 1, table, ts, 7);
  }

  /** The first stream from position 11, "(", then the rest. */
  lemma FirstFrom11(s: seq<Unit>, ts: seq<Token>, table: map<string, Option<SymbolInfo>>)
    requires |s| == 27 && s[11] == '(' as int && s[12] == '3' as int && OneUnitTable(table)
    requires |ts| == 18 && ts[8] == Token("(", LPAREN, 1)
    requires Tokenize(s[12..], 1, table) == Ok(ts[9..])
    ensures Tokenize(s[11..], 1, table) == Ok(ts[8..])
  {
    FirstToken11(s, table);
    Emitted(s, 11, 1, table, ts, 8);
  }

  /** The first stream from position 12, "32.4", then the rest. */
  lemma FirstFrom12(s: seq<Unit>, ts: seq<Token>, table: map<string, Option<SymbolInfo>>)
    requires |s| == 27 && s[12] == '3' as int && s[13] == '2' as int && s[14] == '.' as int
    requires s[15] == '4' as int && s[16] == '-' as int && |ts| == 18 && ts[9] == Token("32.4", FLOAT_LITERAL, 1)
    requires Tokenize(s[16..], 1, table) == Ok(ts[10..])
    ensures Tokenize(s[12..], 1, table) == Ok(ts[9..])
  {
    FirstToken12(s, table);
    Emitted(s, 12, 4, table, ts, 9);
  }

  /** The first stream from position 16, "-", then the rest. */
  lemma FirstFrom16(s: seq<Unit>, ts: seq<Token>, table: map<string, Option<SymbolInfo>>)
    requires |s| == 27 && s[16] == '-' as int && s[17] == '+' as int && OneUnitTable(table)
    requires |ts| == 18 && ts[10] == Token("-", SUB, 1)
    requires Tokenize(s[17..], 1, table) == Ok(ts[11..])
    ensures Tokenize(s[16..], 1, table) == Ok(ts[10..])
  {
    FirstToken16(s, table);
    Emitted(s, 16, 1, table, ts, 10);
  }

  /** The first stream from position 17, "+", then the rest. */
  lemma FirstFrom17(s: seq<Unit>, ts: seq<Token>, table: map<string, Option<SymbolInfo>>)
    requires |s| == 27 && s[17] == '+' as int && s[18] == '.' as int && OneUnitTable(table)
    requires |ts| == 18 && ts[11] == Token("+", ADD, 1)
    requires Tokenize(s[18..], 1, table) == Ok(ts[12..])
    ensures Tokenize(s[17..], 1, table) == Ok(ts[11..])
  {
    FirstToken17(s, table);
    Emitted(s, 17, 1, table, ts, 11);
  }

  /** The first stream from position 18, ".e.", then the rest. */
  lemma FirstFrom18(s: seq<Unit>, ts: seq<Token>, table: map<string, Option<SymbolInfo>>)
    requires |s| == 27 && s[18] == '.' as int && s[19] == 'e' as int && s[20] == '.' as int
    requires s[21] == ')' as int && |ts| == 18 && ts[12] == Token("0.0e0.0", FLOAT_LITERAL, 1)
    requires Tokenize(s[21..], 1, table) == Ok(ts[13..])
    ensures Tokenize(s[18..], 1, table) == Ok(ts[12..])
  {
    FirstToken18(s, table);
    Emitted(s, 18, 3, table, ts, 12);
  }

  /** The first stream from position 21, ")", then the rest. */
  lemma FirstFrom21(s: seq<Unit>, ts: seq<Token>, table: map<string, Option<SymbolInfo>>)
    requires |s| == 27 && s[21] == ')' as int && s[22] == '/' as int && OneUnitTable(table)
    requires |ts| == 18 && ts[13] == Token(")", RPAREN, 1)
    requires Tokenize(s[22..], 1, table) == Ok(ts[14..])
    ensures Tokenize(s[21..], 1, table) == Ok(ts[13..])
  {
    FirstToken21(s, table);
    Emitted(s, 21, 1, table, ts, 13);
  }

  /** The first stream from position 22, "/", then the rest. */
  lemma FirstFrom22(s: seq<Unit>, ts: seq<Token>, table: map<string, Option<SymbolInfo>>)
    requires |s| == 27 && s[22] == '/' as int && s[23] == '.' as int && OneUnitTable(table)
    requires |ts| == 18 && ts[14] == Token("/", DIV, 1)
    requires Tokenize(s[23..], 1, table) == Ok(ts[15..])
    ensures Tokenize(s[22..], 1, table) == Ok(ts[14..])
  {
    FirstToken22(s, table);
    Emitted(s, 22, 1, table, ts, 14);
  }

  /** The first stream from position 23, ".9", then the rest. */
  lemma FirstFrom23(s: seq<Unit>, ts: seq<Token>, table: map<string, Option<SymbolInfo>>)
    requires |s| == 27 && s[23] == '.' as int && s[24] == '9' as int && s[25] == '*' as int
    requires |ts| == 18 && ts[15] == Token("0.9", FLOAT_LITERAL, 1)
    requires Tokenize(s[25..], 1, table) == Ok(ts[16..])
    ensures Tokenize(s[23..], 1, table) == Ok(ts[15..])
  {
    FirstToken23(s, table);
    Emitted(s, 23, 2, table, ts, 15);
  }

  /** The first stream from position 25, "*", then the rest. */
  lemma FirstFrom25(s: seq<Unit>, ts: seq<Token>, table: map<string, Option<SymbolInfo>>)
    requires |s| == 27 && s[25] == '*' as int && s[26] == '.' as int && OneUnitTable(table)
    requires |ts| == 18 && ts[16] == Token("*", MULT, 1)
    requires Tokenize(s[26..], 1, table) == Ok(ts[17..])
    ensures Tokenize(s[25..], 1, table) == Ok(ts[16..])
  {
    FirstToken25(s, table);
    Emitted(s, 25, 1, table, ts, 16);
  }

  /** The first stream from position 26, ".", then the rest. */
  lemma FirstFrom26(s: seq<Unit>, ts: seq<Token>, table: map<string, Option<SymbolInfo>>)
    requires |s| == 27 && s[26] == '.' as int && |ts| == 18 && ts[17] == Token("0.0", FLOAT_LITERAL, 1)
    requires Tokenize(s[27..], 1, table) == Ok(ts[18..])
    ensures Tokenize(s[26..], 1, table) == Ok(ts[17..])
  {
    FirstToken26(s, table);
    Emitted(s, 26, 1, table, ts, 17);
  }

  /** `testLexerValid1` in any table that serves the streams. */
  lemma FirstStreamWith(s: seq<Unit>, table: map<string, Option<SymbolInfo>>)
    requires StreamTable(table)
    requires s == UnitsOf(FirstInput)
    ensures Tokenize(s, 1, table) == Ok(FirstTokens)
  {
    FirstUnits(s);
    var ts := FirstTokens;
    FirstTokensAt(ts);
    StreamEnd(s, table, ts[18..]);
    FirstFrom26(s, ts, table);
    FirstFrom25(s, ts, table);
    FirstFrom23(s, ts, table);
    FirstFrom22(s, ts, table);
    FirstFrom21(s, ts, table);
    FirstFrom18(s, ts, table);
    FirstFrom17(s, ts, table);
    FirstFrom16(s, ts, table);
    FirstFrom12(s, ts, table);
    FirstFrom11(s, ts, table);
    FirstFrom10(s, ts, table);
    FirstFrom9(s, ts, table);
    FirstFrom6(s, ts, table);
    FirstFrom5(s, ts, table);
    FirstFrom4(s, ts, table);
    FirstFrom3(s, ts, table);
    FirstFrom2(s, ts, table);
    FirstFrom0(s, ts, table);
  }

  /** `testLexerValid1`: the whole stream lexes as the expected tokens. */
  lemma FirstStream(s: seq<Unit>)
    requires s == UnitsOf(FirstInput)
    ensures Tokenize(s, 1, Contents) == Ok(FirstTokens)
  {
    ContentsServesStreams();
    FirstStreamWith(s, Contents);
  }

  /** The units of the second input, one by one. */
  lemma SecondUnits(s: seq<Unit>)
    requires s == UnitsOf(SecondInput)
    ensures |s| == 51
    ensures s[0] == ' ' as int && s[1] == ' ' as int && s[2] == 'v' as int && s[3] == 'a' as int && s[4] == 'r' as int
    ensures s[5] == ' ' as int && s[6] == 'b' as int && s[7] == '=' as int && s[8] == 'b' as int && s[9] == ' ' as int
    ensures s[10] == '+' as int && s[11] == '\t' as int && s[12] == '-' as int && s[13] == '.' as int && s[14] == 'e' as int
    ensures s[15] == '+' as int && s[16] == '.' as int && s[17] == '5' as int && s[18] == ' ' as int && s[19] == '*' as int
    ensures s[20] == ' ' as int && s[21] == ' ' as int && s[22] == 'a' as int && s[23] == '/' as int && s[24] == 'a' as int
    ensures s[25] == ' ' as int && s[26] == ' ' as int && s[27] == '*' as int && s[28] == '(' as int && s[29] == '(' as int
    ensures s[30] == '2' as int && s[31] == '.' as int && s[32] == 'e' as int && s[33] == '-' as int && s[34] == '1' as int
    ensures s[35] == '-' as int && s[36] == '6' as int && s[37] == '7' as int && s[38] == '.' as int && s[39] == '+' as int
    ensures s[40] == '7' as int && s[41] == '1' as int && s[42] == 'e' as int && s[43] == '3' as int && s[44] == '*' as int
    ensures s[45] == '2' as int && s[46] == '1' as int && s[47] == ')' as int && s[48] == ')' as int && s[49] == ')' as int
    ensures s[50] == '\t' as int
  {
  }

  /** The expected tokens of the second stream, one by one. */
  lemma SecondTokensAt(ts: seq<Token>)
    requires ts == SecondTokens
    ensures |ts| == 24 && ts[0] == Token("var", MUTABLE_ID_DECL, 1) && ts[1] == Token("b", VAR, 1)
    ensures ts[2] == Token("=", ASSIGNMENT, 1) && ts[3] == Token("b", VAR, 1) && ts[4] == Token("+", ADD, 1)
    ensures ts[5] == Token("-", SUB, 1) && ts[6] == Token("0.0e+0.5", FLOAT_LITERAL, 1) && ts[7] == Token("*", MULT, 1)
    ensures ts[8] == Token("a", VAR, 1) && ts[9] == Token("/", DIV, 1) && ts[10] == Token("a", VAR, 1)
    ensures ts[11] == Token("*", MULT, 1) && ts[12] == Token("(", LPAREN, 1) && ts[13] == Token("(", LPAREN, 1)
    ensures ts[14] == Token("2.0e-1", FLOAT_LITERAL, 1) && ts[15] == Token("-", SUB, 1) && ts[16] == Token("67.0", FLOAT_LITERAL, 1)
    ensures ts[17] == Token("+", ADD, 1) && ts[18] == Token("71e3", FLOAT_LITERAL, 1) && ts[19] == Token("*", MULT, 1)
    ensures ts[20] == Token("21", INT_LITERAL, 1) && ts[21] == Token(")", RPAREN, 1) && ts[22] == Token(")", RPAREN, 1)
    ensures ts[23] == Token(")", RPAREN, 1)
  {
  }

  /** The second stream at position 6: "b" is token 1. */
  lemma SecondToken6(s: seq<Unit>, table: map<string, Option<SymbolInfo>>)
    requires |s| == 51 && Lookup(table, "b") == None && s[6] == 'b' as int
    requires s[7] == '=' as int
    ensures !IsSpace(s[6]) && TokenAt(s[6..], 1, table) == Emit(Token("b", VAR, 1), 1)
  {
    NotSpace(s[6]);
    NameLetters();
    LetterToken(s[6..], 'b', '=', table);
  }

  /** The second stream at position 7: "=" is token 2. */
  lemma SecondToken7(s: seq<Unit>, table: map<string, Option<SymbolInfo>>)
    requires |s| == 51 && OneUnitTable(table) && s[7] == '=' as int
    ensures !IsSpace(s[7]) && TokenAt(s[7..], 1, table) == Emit(Token("=", ASSIGNMENT, 1), 1)
  {
    NotSpace(s[7]);
    OperatorToken(s[7..], '=', 1, table);
  }

  /** The second stream at position 8: "b" is token 3. */
  lemma SecondToken8(s: seq<Unit>, table: map<string, Option<SymbolInfo>>)
    requires |s| == 51 && Lookup(table, "b") == None && s[8] == 'b' as int
    requires s[9] == ' ' as int
    ensures !IsSpace(s[8]) && TokenAt(s[8..], 1, table) == Emit(Token("b", VAR, 1), 1)
  {
    NotSpace(s[8]);
    NameLetters();
    LetterToken(s[8..], 'b', ' ', table);
  }

  /** The second stream at position 10: "+" is token 4. */
  lemma SecondToken10(s: seq<Unit>, table: map<string, Option<SymbolInfo>>)
    requires |s| == 51 && OneUnitTable(table) && s[10] == '+' as int
    ensures !IsSpace(s[10]) && TokenAt(s[10..], 1, table) == Emit(Token("+", ADD, 1), 1)
  {
    NotSpace(s[10]);
    OperatorToken(s[10..], '+', 1, table);
  }

  /** The second stream at position 12: "-" is token 5. */
  lemma SecondToken12(s: seq<Unit>, table: map<string, Option<SymbolInfo>>)
    requires |s| == 51 && OneUnitTable(table) && s[12] == '-' as int
    ensures !IsSpace(s[12]) && TokenAt(s[12..], 1, table) == Emit(Token("-", SUB, 1), 1)
  {
    NotSpace(s[12]);
    OperatorToken(s[12..], '-', 1, table);
  }

  /** The second stream at position 13: ".e+.5" is token 6. */
  lemma SecondToken13(s: seq<Unit>, table: map<string, Option<SymbolInfo>>)
    requires |s| == 51 && s[13] == '.' as int && s[14] == 'e' as int
    requires s[15] == '+' as int && s[16] == '.' as int && s[17] == '5' as int
    requires s[18] == ' ' as int
    ensures !IsSpace(s[13]) && TokenAt(s[13..], 1, table) == Emit(Token("0.0e+0.5", FLOAT_LITERAL, 1), 5)
  {
    NotSpace(s[13]);
    SignedExponent(s[13..]);
    NumberToken(s[13..], 1, table);
  }

  /** The second stream at position 19: "*" is token 7. */
  lemma SecondToken19(s: seq<Unit>, table: map<string, Option<SymbolInfo>>)
    requires |s| == 51 && OneUnitTable(table) && s[19] == '*' as int
    ensures !IsSpace(s[19]) && TokenAt(s[19..], 1, table) == Emit(Token("*", MULT, 1), 1)
  {
    NotSpace(s[19]);
    OperatorToken(s[19..], '*', 1, table);
  }

  /** The second stream at position 22: "a" is token 8. */
  lemma SecondToken22(s: seq<Unit>, table: map<string, Option<SymbolInfo>>)
    requires |s| == 51 && Lookup(table, "a") == None && s[22] == 'a' as int
    requires s[23] == '/' as int
    ensures !IsSpace(s[22]) && TokenAt(s[22..], 1, table) == Emit(Token("a", VAR, 1), 1)
  {
    NotSpace(s[22]);
    NameLetters();
    LetterToken(s[22..], 'a', '/', table);
  }

  /** The second stream at position 23: "/" is token 9. */
  lemma SecondToken23(s: seq<Unit>, table: map<string, Option<SymbolInfo>>)
    requires |s| == 51 && OneUnitTable(table) && s[23] == '/' as int
    ensures !IsSpace(s[23]) && TokenAt(s[23..], 1, table) == Emit(Token("/", DIV, 1), 1)
  {
    NotSpace(s[23]);
    OperatorToken(s[23..], '/', 1, table);
  }

  /** The second stream at position 24: "a" is token 10. */
  lemma SecondToken24(s: seq<Unit>, table: map<string, Option<SymbolInfo>>)
    requires |s| == 51 && Lookup(table, "a") == None && s[24] == 'a' as int
    requires s[25] == ' ' as int
    ensures !IsSpace(s[24]) && TokenAt(s[24..], 1, table) == Emit(Token("a", VAR, 1), 1)
  {
    NotSpace(s[24]);
    NameLetters();
    LetterToken(s[24..], 'a', ' ', table);
  }

  /** The second stream at position 27: "*" is token 11. */
  lemma SecondToken27(s: seq<Unit>, table: map<string, Option<SymbolInfo>>)
    requires |s| == 51 && OneUnitTable(table) && s[27] == '*' as int
    ensures !IsSpace(s[27]) && TokenAt(s[27..], 1, table) == Emit(Token("*", MULT, 1), 1)
  {
    NotSpace(s[27]);
    OperatorToken(s[27..], '*', 1, table);
  }

  /** The second stream at position 28: "(" is token 12. */
  lemma SecondToken28(s: seq<Unit>, table: map<string, Option<SymbolInfo>>)
    requires |s| == 51 && OneUnitTable(table) && s[28] == '(' as int
    ensures !IsSpace(s[28]) && TokenAt(s[28..], 1, table) == Emit(Token("(", LPAREN, 1), 1)
  {
    NotSpace(s[28]);
    OperatorToken(s[28..], '(', 1, table);
  }

  /** The second stream at position 29: "(" is token 13. */
  lemma SecondToken29(s: seq<Unit>, table: map<string, Option<SymbolInfo>>)
    requires |s| == 51 && OneUnitTable(table) && s[29] == '(' as int
    ensures !IsSpace(s[29]) && TokenAt(s[29..], 1, table) == Emit(Token("(", LPAREN, 1), 1)
  {
    NotSpace(s[29]);
    OperatorToken(s[29..], '(', 1, table);
  }

  /** The second stream at position 30: "2.e-1" is token 14. */
  lemma SecondToken30(s: seq<Unit>, table: map<string, Option<SymbolInfo>>)
    requires |s| == 51 && s[30] == '2' as int && s[31] == '.' as int
    requires s[32] == 'e' as int && s[33] == '-' as int && s[34] == '1' as int
    requires s[35] == '-' as int
    ensures !IsSpace(s[30]) && TokenAt(s[30..], 1, table) == Emit(Token("2.0e-1", FLOAT_LITERAL, 1), 5)
  {
    NotSpace(s[30]);
    NegativeExponent(s[30..]);
    NumberToken(s[30..], 1, table);
  }

  /** The second stream at position 35: "-" is token 15. */
  lemma SecondToken35(s: seq<Unit>, table: map<string, Option<SymbolInfo>>)
    requires |s| == 51 && OneUnitTable(table) && s[35] == '-' as int
    ensures !IsSpace(s[35]) && TokenAt(s[35..], 1, table) == Emit(Token("-", SUB, 1), 1)
  {
    NotSpace(s[35]);
    OperatorToken(s[35..], '-', 1, table);
  }

  /** The second stream at position 36: "67." is token 16. */
  lemma SecondToken36(s: seq<Unit>, table: map<string, Option<SymbolInfo>>)
    requires |s| == 51 && s[36] == '6' as int && s[37] == '7' as int
    requires s[38] == '.' as int && s[39] == '+' as int
    ensures !IsSpace(s[36]) && TokenAt(s[36..], 1, table) == Emit(Token("67.0", FLOAT_LITERAL, 1), 3)
  {
    NotSpace(s[36]);
    TrailingDotBeforeOperator(s[36..]);
    NumberToken(s[36..], 1, table);
  }

  /** The second stream at position 39: "+" is token 17. */
  lemma SecondToken39(s: seq<Unit>, table: map<string, Option<SymbolInfo>>)
    requires |s| == 51 && OneUnitTable(table) && s[39] == '+' as int
    ensures !IsSpace(s[39]) && TokenAt(s[39..], 1, table) == Emit(Token("+", ADD, 1), 1)
  {
    NotSpace(s[39]);
    OperatorToken(s[39..], '+', 1, table);
  }

  /** The second stream at position 40: "71e3" is token 18. */
  lemma SecondToken40(s: seq<Unit>, table: map<string, Option<SymbolInfo>>)
    requires |s| == 51 && s[40] == '7' as int && s[41] == '1' as int
    requires s[42] == 'e' as int && s[43] == '3' as int && s[44] == '*' as int
    ensures !IsSpace(s[40]) && TokenAt(s[40..], 1, table) == Emit(Token("71e3", FLOAT_LITERAL, 1), 4)
  {
    NotSpace(s[40]);
    IntegerWithExponent(s[40..]);
    NumberToken(s[40..], 1, table);
  }

  /** The second stream at position 44: "*" is token 19. */
  lemma SecondToken44(s: seq<Unit>, table: map<string, Option<SymbolInfo>>)
    requires |s| == 51 && OneUnitTable(table) && s[44] == '*' as int
    ensures !IsSpace(s[44]) && TokenAt(s[44..], 1, table) == Emit(Token("*", MULT, 1), 1)
  {
    NotSpace(s[44]);
    OperatorToken(s[44..], '*', 1, table);
  }

  /** The second stream at position 45: "21" is token 20. */
  lemma SecondToken45(s: seq<Unit>, table: map<string, Option<SymbolInfo>>)
    requires |s| == 51 && s[45] == '2' as int && s[46] == '1' as int
    requires s[47] == ')' as int
    ensures !IsSpace(s[45]) && TokenAt(s[45..], 1, table) == Emit(Token("21", INT_LITERAL, 1), 2)
  {
    NotSpace(s[45]);
    TwoDigitInteger(s[45..], '2', '1', ')');
    NumberToken(s[45..], 1, table);
  }

  /** The second stream at position 47: ")" is token 21. */
  lemma SecondToken47(s: seq<Unit>, table: map<string, Option<SymbolInfo>>)
    requires |s| == 51 && OneUnitTable(table) && s[47] == ')' as int
    ensures !IsSpace(s[47]) && TokenAt(s[47..], 1, table) == Emit(Token(")", RPAREN, 1), 1)
  {
    NotSpace(s[47]);
    OperatorToken(s[47..], ')', 1, table);
  }

  /** The second stream at position 48: ")" is token 22. */
  lemma SecondToken48(s: seq<Unit>, table: map<string, Option<SymbolInfo>>)
    requires |s| == 51 && OneUnitTable(table) && s[48] == ')' as int
    ensures !IsSpace(s[48]) && TokenAt(s[48..], 1, table) == Emit(Token(")", RPAREN, 1), 1)
  {
    NotSpace(s[48]);
    OperatorToken(s[48..], ')', 1, table);
  }

  /** The second stream at position 49: ")" is token 23. */
  lemma SecondToken49(s: seq<Unit>, table: map<string, Option<SymbolInfo>>)
    requires |s| == 51 && OneUnitTable(table) && s[49] == ')' as int
    ensures !IsSpace(s[49]) && TokenAt(s[49..], 1, table) == Emit(Token(")", RPAREN, 1), 1)
  {
    NotSpace(s[49]);
    OperatorToken(s[49..], ')', 1, table);
  }

  /** The second stream from position 0, " ", then the rest. */
  lemma SecondFrom0(s: seq<Unit>, ts: seq<Token>, table: map<string, Option<SymbolInfo>>)
    requires |s| == 51 && s[0] == ' ' as int && s[1] == ' ' as int && |ts| == 24
    requires Tokenize(s[1..], 1, table) == Ok(ts[0..])
    ensures Tokenize(s, 1, table) == Ok(ts)
  {
    BlankStep(s, 0, table, ts[0..]);
  }

  /** The second stream from position 1, " ", then the rest. */
  lemma SecondFrom1(s: seq<Unit>, ts: seq<Token>, table: map<string, Option<SymbolInfo>>)
    requires |s| == 51 && s[1] == ' ' as int && s[2] == 'v' as int && |ts| == 24
    requires Tokenize(s[2..], 1, table) == Ok(ts[0..])
    ensures Tokenize(s[1..], 1, table) == Ok(ts[0..])
  {
    BlankStep(s, 1, table, ts[0..]);
  }

  /** The second stream from position 2, "var", then the rest. */
  lemma SecondFrom2(s: seq<Unit>, ts: seq<Token>, table: map<string, Option<SymbolInfo>>)
    requires |s| == 51 && s[2] == 'v' as int && s[3] == 'a' as int && s[4] == 'r' as int
    requires IsBlank(s[5]) && WordType("var", table) == MUTABLE_ID_DECL && |ts| == 24 && ts[0] == Token("var", MUTABLE_ID_DECL, 1)
    requires Tokenize(s[5..], 1, table) == Ok(ts[1..])
    ensures Tokenize(s[2..], 1, table) == Ok(ts[0..])
  {
    VarStep(s, 2, table, ts, 0);
  }

  /** The second stream from position 5, " ", then the rest. */
  lemma SecondFrom5(s: seq<Unit>, ts: seq<Token>, table: map<string, Option<SymbolInfo>>)
    requires |s| == 51 && s[5] == ' ' as int && s[6] == 'b' as int && |ts| == 24
    requires Tokenize(s[6..], 1, table) == Ok(ts[1..])
    ensures Tokenize(s[5..], 1, table) == Ok(ts[1..])
  {
    BlankStep(s, 5, table, ts[1..]);
  }

  /** The second stream from position 6, "b", then the rest. */
  lemma SecondFrom6(s: seq<Unit>, ts: seq<Token>, table: map<string, Option<SymbolInfo>>)
    requires |s| == 51 && s[6] == 'b' as int && s[7] == '=' as int && Lookup(table, "b") == None
    requires |ts| == 24 && ts[1] == Token("b", VAR, 1)
    requires Tokenize(s[7..], 1, table) == Ok(ts[2..])
    ensures Tokenize(s[6..], 1, table) == Ok(ts[1..])
  {
    SecondToken6(s, table);
    Emitted(s, 6, 1, table, ts, 1);
  }

  /** The second stream from position 7, "=", then the rest. */
  lemma SecondFrom7(s: seq<Unit>, ts: seq<Token>, table: map<string, Option<SymbolInfo>>)
    requires |s| == 51 && s[7] == '=' as int && s[8] == 'b' as int && OneUnitTable(table)
    requires |ts| == 24 && ts[2] == Token("=", ASSIGNMENT, 1)
    requires Tokenize(s[8..], 1, table) == Ok(ts[3..])
    ensures Tokenize(s[7..], 1, table) == Ok(ts[2..])
  {
    SecondToken7(s, table);
    Emitted(s, 7, 1, table, ts, 2);
  }

  /** The second stream from position 8, "b", then the rest. */
  lemma SecondFrom8(s: seq<Unit>, ts: seq<Token>, table: map<string, Option<SymbolInfo>>)
    requires |s| == 51 && s[8] == 'b' as int && s[9] == ' ' as int && Lookup(table, "b") == None
    requires |ts| == 24 && ts[3] == Token("b", VAR, 1)
    requires Tokenize(s[9..], 1, table) == Ok(ts[4..])
    ensures Tokenize(s[8..], 1, table) == Ok(ts[3..])
  {
    SecondToken8(s, table);
    Emitted(s, 8, 1, table, ts, 3);
  }

  /** The second stream from position 9, " ", then the rest. */
  lemma SecondFrom9(s: seq<Unit>, ts: seq<Token>, table: map<string, Option<SymbolInfo>>)
    requires |s| == 51 && s[9] == ' ' as int && s[10] == '+' as int && |ts| == 24
    requires Tokenize(s[10..], 1, table) == Ok(ts[4..])
    ensures Tokenize(s[9..], 1, table) == Ok(ts[4..])
  {
    BlankStep(s, 9, table, ts[4..]);
  }

  /** The second stream from position 10, "+", then the rest. */
  lemma SecondFrom10(s: seq<Unit>, ts: seq<Token>, table: map<string, Option<SymbolInfo>>)
    requires |s| == 51 && s[10] == '+' as int && s[11] == '\t' as int && OneUnitTable(table)
    requires |ts| == 24 && ts[4] == Token("+", ADD, 1)
    requires Tokenize(s[11..], 1, table) == Ok(ts[5..])
    ensures Tokenize(s[10..], 1, table) == Ok(ts[4..])
  {
    SecondToken10(s, table);
    Emitted(s, 10, 1, table, ts, 4);
  }

  /** The second stream from position 11, "\t", then the rest. */
  lemma SecondFrom11(s: seq<Unit>, ts: seq<Token>, table: map<string, Option<SymbolInfo>>)
    requires |s| == 51 && s[11] == '\t' as int && s[12] == '-' as int && |ts| == 24
    requires Tokenize(s[12..], 1, table) == Ok(ts[5..])
    ensures Tokenize(s[11..], 1, table) == Ok(ts[5..])
  {
    BlankStep(s, 11, table, ts[5..]);
  }

  /** The second stream from position 12, "-", then the rest. */
  lemma SecondFrom12(s: seq<Unit>, ts: seq<Token>, table: map<string, Option<SymbolInfo>>)
    requires |s| == 51 && s[12] == '-' as int && s[13] == '.' as int && OneUnitTable(table)
    requires |ts| == 24 && ts[5] == Token("-", SUB, 1)
    requires Tokenize(s[13..], 1, table) == Ok(ts[6..])
    ensures Tokenize(s[12..], 1, table) == Ok(ts[5..])
  {
    SecondToken12(s, table);
    Emitted(s, 12, 1, table, ts, 5);
  }

  /** The second stream from position 13, ".e+.5", then the rest. */
  lemma SecondFrom13(s: seq<Unit>, ts: seq<Token>, table: map<string, Option<SymbolInfo>>)
    requires |s| == 51 && s[13] == '.' as int && s[14] == 'e' as int && s[15] == '+' as int
    requires s[16] == '.' as int && s[17] == '5' as int && s[18] == ' ' as int && |ts| == 24
    requires ts[6] == Token("0.0e+0.5", FLOAT_LITERAL, 1)
    requires Tokenize(s[18..], 1, table) == Ok(ts[7..])
    ensures Tokenize(s[13..], 1, table) == Ok(ts[6..])
  {
    SecondToken13(s, table);
    Emitted(s, 13, 5, table, ts, 6);
  }

  /** The second stream from position 18, " ", then the rest. */
  lemma SecondFrom18(s: seq<Unit>, ts: seq<Token>, table: map<string, Option<SymbolInfo>>)
    requires |s| == 51 && s[18] == ' ' as int && s[19] == '*' as int && |ts| == 24
    requires Tokenize(s[19..], 1, table) == Ok(ts[7..])
    ensures Tokenize(s[18..], 1, table) == Ok(ts[7..])
  {
    BlankStep(s, 18, table, ts[7..]);
  }

  /** The second stream from position 19, "*", then the rest. */
  lemma SecondFrom19(s: seq<Unit>, ts: seq<Token>, table: map<string, Option<SymbolInfo>>)
    requires |s| == 51 && s[19] == '*' as int && s[20] == ' ' as int && OneUnitTable(table)
    requires |ts| == 24 && ts[7] == Token("*", MULT, 1)
    requires Tokenize(s[20..], 1, table) == Ok(ts[8..])
    ensures Tokenize(s[19..], 1, table) == Ok(ts[7..])
  {
    SecondToken19(s, table);
    Emitted(s, 19, 1, table, ts, 7);
  }

  /** The second stream from position 20, " ", then the rest. */
  lemma SecondFrom20(s: seq<Unit>, ts: seq<Token>, table: map<string, Option<SymbolInfo>>)
    requires |s| == 51 && s[20] == ' ' as int && s[21] == ' ' as int && |ts| == 24
    requires Tokenize(s[21..], 1, table) == Ok(ts[8..])
    ensures Tokenize(s[20..], 1, table) == Ok(ts[8..])
  {
    BlankStep(s, 20, table, ts[8..]);
  }

  /** The second stream from position 21, " ", then the rest. */
  lemma SecondFrom21(s: seq<Unit>, ts: seq<Token>, table: map<string, Option<SymbolInfo>>)
    requires |s| == 51 && s[21] == ' ' as int && s[22] == 'a' as int && |ts| == 24
    requires Tokenize(s[22..], 1, table) == Ok(ts[8..])
    ensures Tokenize(s[21..], 1, table) == Ok(ts[8..])
  {
    BlankStep(s, 21, table, ts[8..]);
  }

  /** The second stream from position 22, "a", then the rest. */
  lemma SecondFrom22(s: seq<Unit>, ts: seq<Token>, table: map<string, Option<SymbolInfo>>)
    requires |s| == 51 && s[22] == 'a' as int && s[23] == '/' as int && Lookup(table, "a") == None
    requires |ts| == 24 && ts[8] == Token("a", VAR, 1)
    requires Tokenize(s[23..], 1, table) == Ok(ts[9..])
    ensures Tokenize(s[22..], 1, table) == Ok(ts[8..])
  {
    SecondToken22(s, table);
    Emitted(s, 22, 1, table, ts, 8);
  }

  /** The second stream from position 23, "/", then the rest. */
  lemma SecondFrom23(s: seq<Unit>, ts: seq<Token>, table: map<string, Option<SymbolInfo>>)
    requires |s| == 51 && s[23] == '/' as int && s[24] == 'a' as int && OneUnitTable(table)
    requires |ts| == 24 && ts[9] == Token("/", DIV, 1)
    requires Tokenize(s[24..], 1, table) == Ok(ts[10..])
    ensures Tokenize(s[23..], 1, table) == Ok(ts[9..])
  {
    SecondToken23(s, table);
    Emitted(s, 23, 1, table, ts, 9);
  }

  /** The second stream from position 24, "a", then the rest. */
  lemma SecondFrom24(s: seq<Unit>, ts: seq<Token>, table: map<string, Option<SymbolInfo>>)
    requires |s| == 51 && s[24] == 'a' as int && s[25] == ' ' as int && Lookup(table, "a") == None
    requires |ts| == 24 && ts[10] == Token("a", VAR, 1)
    requires Tokenize(s[25..], 1, table) == Ok(ts[11..])
    ensures Tokenize(s[24..], 1, table) == Ok(ts[10..])
  {
    SecondToken24(s, table);
    Emitted(s, 24, 1, table, ts, 10);
  }

  /** The second stream from position 25, " ", then the rest. */
  lemma SecondFrom25(s: seq<Unit>, ts: seq<Token>, table: map<string, Option<SymbolInfo>>)
    requires |s| == 51 && s[25] == ' ' as int && s[26] == ' ' as int && |ts| == 24
    requires Tokenize(s[26..], 1, table) == Ok(ts[11..])
    ensures Tokenize(s[25..], 1, table) == Ok(ts[11..])
  {
    BlankStep(s, 25, table, ts[11..]);
  }

  /** The second stream from position 26, " ", then the rest. */
  lemma SecondFrom26(s: seq<Unit>, ts: seq<Token>, table: map<string, Option<SymbolInfo>>)
    requires |s| == 51 && s[26] == ' ' as int && s[27] == '*' as int && |ts| == 24
    requires Tokenize(s[27..], 1, table) == Ok(ts[11..])
    ensures Tokenize(s[26..], 1, table) == Ok(ts[11..])
  {
    BlankStep(s, 26, table, ts[11..]);
  }

  /** The second stream from position 27, "*", then the rest. */
  lemma SecondFrom27(s: seq<Unit>, ts: seq<Token>, table: map<string, Option<SymbolInfo>>)
    requires |s| == 51 && s[27] == '*' as int && s[28] == '(' as int && OneUnitTable(table)
    requires |ts| == 24 && ts[11] == Token("*", MULT, 1)
    requires Tokenize(s[28..], 1, table) == Ok(ts[12..])
    ensures Tokenize(s[27..], 1, table) == Ok(ts[11..])
  {
    SecondToken27(s, table);
    Emitted(s, 27, 1, table, ts, 11);
  }

  /** The second stream from position 28, "(", then the rest. */
  lemma SecondFrom28(s: seq<Unit>, ts: seq<Token>, table: map<string, Option<SymbolInfo>>)
    requires |s| == 51 && s[28] == '(' as int && s[29] == '(' as int && OneUnitTable(table)
    requires |ts| == 24 && ts[12] == Token("(", LPAREN, 1)
    requires Tokenize(s[29..], 1, table) == Ok(ts[13..])
    ensures Tokenize(s[28..], 1, table) == Ok(ts[12..])
  {
    SecondToken28(s, table);
    Emitted(s, 28, 1, table, ts, 12);
  }

  /** The second stream from position 29, "(", then the rest. */
  lemma SecondFrom29(s: seq<Unit>, ts: seq<Token>, table: map<string, Option<SymbolInfo>>)
    requires |s| == 51 && s[29] == '(' as int && s[30] == '2' as int && OneUnitTable(table)
    requires |ts| == 24 && ts[13] == Token("(", LPAREN, 1)
    requires Tokenize(s[30..], 1, table) == Ok(ts[14..])
    ensures Tokenize(s[29..], 1, table) == Ok(ts[13..])
  {
    SecondToken29(s, table);
    Emitted(s, 29, 1, table, ts, 13);
  }

  /** The second stream from position 30, "2.e-1", then the rest. */
  lemma SecondFrom30(s: seq<Unit>, ts: seq<Token>, table: map<string, Option<SymbolInfo>>)
    requires |s| == 51 && s[30] == '2' as int && s[31] == '.' as int && s[32] == 'e' as int
    requires s[33] == '-' as int && s[34] == '1' as int && s[35] == '-' as int && |ts| == 24
    requires ts[14] == Token("2.0e-1", FLOAT_LITERAL, 1)
    requires Tokenize(s[35..], 1, table) == Ok(ts[15..])
    ensures Tokenize(s[30..], 1, table) == Ok(ts[14..])
  {
    SecondToken30(s, table);
    Emitted(s, 30, 5, table, ts, 14);
  }

  /** The second stream from position 35, "-", then the rest. */
  lemma SecondFrom35(s: seq<Unit>, ts: seq<Token>, table: map<string, Option<SymbolInfo>>)
    requires |s| == 51 && s[35] == '-' as int && s[36] == '6' as int && OneUnitTable(table)
    requires |ts| == 24 && ts[15] == Token("-", SUB, 1)
    requires Tokenize(s[36..], 1, table) == Ok(ts[16..])
    ensures Tokenize(s[35..], 1, table) == Ok(ts[15..])
  {
    SecondToken35(s, table);
    Emitted(s, 35, 1, table, ts, 15);
  }

  /** The second stream from position 36, "67.", then the rest. */
  lemma SecondFrom36(s: seq<Unit>, ts: seq<Token>, table: map<string, Option<SymbolInfo>>)
    requires |s| == 51 && s[36] == '6' as int && s[37] == '7' as int && s[38] == '.' as int
    requires s[39] == '+' as int && |ts| == 24 && ts[16] == Token("67.0", FLOAT_LITERAL, 1)
    requires Tokenize(s[39..], 1, table) == Ok(ts[17..])
    ensures Tokenize(s[36..], 1, table) == Ok(ts[16..])
  {
    SecondToken36(s, table);
    Emitted(s, 36, 3, table, ts, 16);
  }

  /** The second stream from position 39, "+", then the rest. */
  lemma SecondFrom39(s: seq<Unit>, ts: seq<Token>, table: map<string, Option<SymbolInfo>>)
    requires |s| == 51 && s[39] == '+' as int && s[40] == '7' as int && OneUnitTable(table)
    requires |ts| == 24 && ts[17] == Token("+", ADD, 1)
    requires Tokenize(s[40..], 1, table) == Ok(ts[18..])
    ensures Tokenize(s[39..], 1, table) == Ok(ts[17..])
  {
    SecondToken39(s, table);
    Emitted(s, 39, 1, table, ts, 17);
  }

  /** The second stream from position 40, "71e3", then the rest. */
  lemma SecondFrom40(s: seq<Unit>, ts: seq<Token>, table: map<string, Option<SymbolInfo>>)
    requires |s| == 51 && s[40] == '7' as int && s[41] == '1' as int && s[42] == 'e' as int
    requires s[43] == '3' as int && s[44] == '*' as int && |ts| == 24 && ts[18] == Token("71e3", FLOAT_LITERAL, 1)
    requires Tokenize(s[44..], 1, table) == Ok(ts[19..])
    ensures Tokenize(s[40..], 1, table) == Ok(ts[18..])
  {
    SecondToken40(s, table);
    Emitted(s, 40, 4, table, ts, 18);
  }

  /** The second stream from position 44, "*", then the rest. */
  lemma SecondFrom44(s: seq<Unit>, ts: seq<Token>, table: map<string, Option<SymbolInfo>>)
    requires |s| == 51 && s[44] == '*' as int && s[45] == '2' as int && OneUnitTable(table)
    requires |ts| == 24 && ts[19] == Token("*", MULT, 1)
    requires Tokenize(s[45..], 1, table) == Ok(ts[20..])
    ensures Tokenize(s[44..], 1, table) == Ok(ts[19..])
  {
    SecondToken44(s, table);
    Emitted(s, 44, 1, table, ts, 19);
  }

  /** The second stream from position 45, "21", then the rest. */
  lemma SecondFrom45(s: seq<Unit>, ts: seq<Token>, table: map<string, Option<SymbolInfo>>)
    requires |s| == 51 && s[45] == '2' as int && s[46] == '1' as int && s[47] == ')' as int
    requires |ts| == 24 && ts[20] == Token("21", INT_LITERAL, 1)
    requires Tokenize(s[47..], 1, table) == Ok(ts[21..])
    ensures Tokenize(s[45..], 1, table) == Ok(ts[20..])
  {
    SecondToken45(s, table);
    Emitted(s, 45, 2, table, ts, 20);
  }

  /** The second stream from position 47, ")", then the rest. */
  lemma SecondFrom47(s: seq<Unit>, ts: seq<Token>, table: map<string, Option<SymbolInfo>>)
    requires |s| == 51 && s[47] == ')' as int && s[48] == ')' as int && OneUnitTable(table)
    requires |ts| == 24 && ts[21] == Token(")", RPAREN, 1)
    requires Tokenize(s[48..], 1, table) == Ok(ts[22..])
    ensures Tokenize(s[47..], 1, table) == Ok(ts[21..])
  {
    SecondToken47(s, table);
    Emitted(s, 47, 1, table, ts, 21);
  }

  /** The second stream from position 48, ")", then the rest. */
  lemma SecondFrom48(s: seq<Unit>, ts: seq<Token>, table: map<string, Option<SymbolInfo>>)
    requires |s| == 51 && s[48] == ')' as int && s[49] == ')' as int && OneUnitTable(table)
    requires |ts| == 24 && ts[22] == Token(")", RPAREN, 1)
    requires Tokenize(s[49..], 1, table) == Ok(ts[23..])
    ensures Tokenize(s[48..], 1, table) == Ok(ts[22..])
  {
    SecondToken48(s, table);
    Emitted(s, 48, 1, table, ts, 22);
  }

  /** The second stream from position 49, ")", then the rest. */
  lemma SecondFrom49(s: seq<Unit>, ts: seq<Token>, table: map<string, Option<SymbolInfo>>)
    requires |s| == 51 && s[49] == ')' as int && s[50] == '\t' as int && OneUnitTable(table)
    requires |ts| == 24 && ts[23] == Token(")", RPAREN, 1)
    requires Tokenize(s[50..], 1, table) == Ok(ts[24..])
    ensures Tokenize(s[49..], 1, table) == Ok(ts[23..])
  {
    SecondToken49(s, table);
    Emitted(s, 49, 1, table, ts, 23);
  }

  /** The second stream from position 50, "\t", then the rest. */
  lemma SecondFrom50(s: seq<Unit>, ts: seq<Token>, table: map<string, Option<SymbolInfo>>)
    requires |s| == 51 && s[50] == '\t' as int && |ts| == 24
    requires Tokenize(s[51..], 1, table) == Ok(ts[24..])
    ensures Tokenize(s[50..], 1, table) == Ok(ts[24..])
  {
    BlankStep(s, 50, table, ts[24..]);
  }

  /** `testLexerValid2` in any table that serves the streams. */
  lemma SecondStreamWith(s: seq<Unit>, table: map<string, Option<SymbolInfo>>)
    requires StreamTable(table)
    requires s == UnitsOf(SecondInput)
    ensures Tokenize(s, 1, table) == Ok(SecondTokens)
  {
    SecondUnits(s);
    var ts := SecondTokens;
    SecondTokensAt(ts);
    StreamEnd(s, table, ts[24..]);
    SecondFrom50(s, ts, table);
    SecondFrom49(s, ts, table);
    SecondFrom48(s, ts, table);
    SecondFrom47(s, ts, table);
    SecondFrom45(s, ts, table);
    SecondFrom44(s, ts, table);
    SecondFrom40(s, ts, table);
    SecondFrom39(s, ts, table);
    SecondFrom36(s, ts, table);
    SecondFrom35(s, ts, table);
    SecondFrom30(s, ts, table);
    SecondFrom29(s, ts, table);
    SecondFrom28(s, ts, table);
    SecondFrom27(s, ts, table);
    SecondFrom26(s, ts, table);
    SecondFrom25(s, ts, table);
    SecondFrom24(s, ts, table);
    SecondFrom23(s, ts, table);
    SecondFrom22(s, ts, table);
    SecondFrom21(s, ts, table);
    SecondFrom20(s, ts, table);
    SecondFrom19(s, ts, table);
    SecondFrom18(s, ts, table);
    SecondFrom13(s, ts, table);
    SecondFrom12(s, ts, table);
    SecondFrom11(s, ts, table);
    SecondFrom10(s, ts, table);
    SecondFrom9(s, ts, table);
    SecondFrom8(s, ts, table);
    SecondFrom7(s, ts, table);
    SecondFrom6(s, ts, table);
    SecondFrom5(s, ts, table);
    SecondFrom2(s, ts, table);
    SecondFrom1(s, ts, table);
    SecondFrom0(s, ts, table);
  }

  /** `testLexerValid2`: the whole stream lexes as the expected tokens. */
  lemma SecondStream(s: seq<Unit>)
    requires s == UnitsOf(SecondInput)
    ensures Tokenize(s, 1, Contents) == Ok(SecondTokens)
  {
    ContentsServesStreams();
    SecondStreamWith(s, Contents);
  }
}
