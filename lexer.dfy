/**
 * The lexer: reads units through a CharBuffer and hands out one token per
 * `GetNextToken` call. Every routine is proved against the scanner of the
 * lexical grammar it implements (module Lexemes): it returns that scanner's
 * token and consumes exactly that scanner's lexeme.
 */
module Lexers {
  import opened Wrappers
  import opened Exceptions
  import opened Tokens
  import opened Symbols
  import opened LexerTables
  import opened CharBuffers
  import opened Lexemes

  /**
   * What a routine returning a token (or null) does, given the scanner's
   * lexeme for the stream `before`: nothing consumed and null; the lexeme's
   * token on the current line with the lexeme consumed; or the scanner's error.
   */
  ghost predicate Produced(lx: Lexeme, r: Result<Option<Token>>, line: int, before: seq<Unit>, after: seq<Unit>) {
    match lx
    case NoMatch => r == Ok(None) && after == before
    case Match(value, kind, end) => end <= |before| && r == Ok(Some(Token(value, kind, line))) && after == before[end..]
    case Failure(kind) => r == Err(SyntaxError(kind, line))
  }

  /** Where the munch loop stops, its text and saved entry are what ScanOperator yields. */
  lemma OperatorScanned(s0: seq<Unit>, k: nat, tokenStr: string, saved: Option<SymbolInfo>, table: map<string, Option<SymbolInfo>>)
    requires k <= |s0| && OperatorEnd(s0, 0, table) == k && tokenStr == TextOf(s0[..k])
    requires k > 0 ==> saved == Lookup(table, tokenStr) && IsOperatorEntry(saved)
    ensures tokenStr == "" ==> ScanOperator(s0, table) == NoMatch
    ensures tokenStr != "" ==> ScanOperator(s0, table) == Match(tokenStr, saved.value.tokenType, k)
  {
  }

  /** Putting back what a partial match read restores the stream. */
  lemma PutBackRestores(s: seq<Unit>, buffer: string)
    requires |buffer| <= |s| && forall j | 0 <= j < |buffer| :: s[j] == buffer[j] as int
    ensures IsUnits(buffer) && UnitsOf(buffer) + s[|buffer|..] == s
  {
    assert UnitsOf(buffer) == s[..|buffer|];
  }

  /** The text of a digit run read by the number routine, "0" when there is none. */
  function DigitsText(t: Option<Token>): string {
    if t.Some? then t.value.value else "0"
  }

  /**
   * The number routine's three reads (integer digits, '.', fraction digits
   * after a '.') compose to ScanNumber: the number is present unless both the
   * digits and the '.' are missing, and its text is what the routine builds.
   */
  lemma NumberFromParts(s0: seq<Unit>, s1: seq<Unit>, s2: seq<Unit>, s3: seq<Unit>,
                        intPart: Option<Token>, dot: Option<Token>, fraction: Option<Token>, line: int)
    requires Produced(ScanDigits(s0), Ok(intPart), line, s0, s1)
    requires Produced(ScanStr(s1, ".", UNKNOWN), Ok(dot), line, s1, s2)
    requires dot.Some? ==> Produced(ScanDigits(s2), Ok(fraction), line, s2, s3)
    requires dot.None? ==> s3 == s2
    ensures ScanNumber(s0).NoMatch? <==> intPart.None? && dot.None?
    ensures ScanNumber(s0).Match? && dot.None? ==>
      ScanNumber(s0).value == DigitsText(intPart) && ScanNumber(s0).kind == INT_LITERAL
    ensures ScanNumber(s0).Match? && dot.Some? ==>
      ScanNumber(s0).value == DigitsText(intPart) + "." + DigitsText(fraction) && ScanNumber(s0).kind == FLOAT_LITERAL
    ensures ScanNumber(s0).Match? ==> s3 == s0[ScanNumber(s0).end..]
  {
    var d := if intPart.Some? then ScanDigits(s0).end else 0;
    assert s1 == s0[d..];
    NumberConsumed(s0, s1, s2, s3, intPart, dot, fraction, line);
  }

  /** The three reads consume the number's lexeme. */
  lemma NumberConsumed(s0: seq<Unit>, s1: seq<Unit>, s2: seq<Unit>, s3: seq<Unit>,
                       intPart: Option<Token>, dot: Option<Token>, fraction: Option<Token>, line: int)
    requires Produced(ScanDigits(s0), Ok(intPart), line, s0, s1)
    requires Produced(ScanStr(s1, ".", UNKNOWN), Ok(dot), line, s1, s2)
    requires dot.Some? ==> Produced(ScanDigits(s2), Ok(fraction), line, s2, s3)
    requires dot.None? ==> s3 == s2
    ensures ScanNumber(s0).Match? ==> s3 == s0[ScanNumber(s0).end..]
  {
    var d := if intPart.Some? then ScanDigits(s0).end else 0;
    assert s1 == s0[d..];
    if dot.Some? {
      FractionConsumed(s0, d, s2, s3, fraction, line);
    } else {
      assert ScanNumber(s0).Match? ==> ScanNumber(s0).end == d;
    }
  }

  /** After the digits ending at `d` and a '.', the fraction digits end the lexeme. */
  lemma FractionConsumed(s0: seq<Unit>, d: nat, s2: seq<Unit>, s3: seq<Unit>, fraction: Option<Token>, line: int)
    requires d < |s0| && s0[d] == '.' as int && s2 == s0[d + 1..]
    requires d == (if ScanDigits(s0).Match? then ScanDigits(s0).end else 0)
    requires Produced(ScanDigits(s2), Ok(fraction), line, s2, s3)
    ensures ScanNumber(s0).Match? && s3 == s0[ScanNumber(s0).end..]
  {
    var f := if fraction.Some? then ScanDigits(s2).end else 0;
    DropDrop(s0, d + 1, f);
    assert s3 == s0[d + 1 + f..];
    assert ScanStr(s0[d..], ".", UNKNOWN).Match?;
    assert ScanNumber(s0).end == d + 1 + f;
  }

  /**
   * A number not followed by 'e' is the whole lexeme when what follows may
   * end a number, and an invalid numeric expression otherwise.
   */
  lemma NoExponent(t: seq<Unit>, s1: seq<Unit>, s2: seq<Unit>, mantissa: Token, line: int)
    requires Produced(ScanNumber(t), Ok(Some(mantissa)), line, t, s1)
    requires Produced(ScanStr(s1, "e", UNKNOWN), Ok(None), line, s1, s2)
    ensures EndsNumber(Head(s2)) ==> Produced(ScanScientific(t), Ok(Some(mantissa)), line, t, s2)
    ensures !EndsNumber(Head(s2)) ==> ScanScientific(t) == Failure(InvalidNumericExpression)
  {
  }

  /** '+' is tried first and '-' only when '+' is absent. */
  lemma SignFromParts(s: seq<Unit>, s1: seq<Unit>, s2: seq<Unit>, plus: Option<Token>, sign: Option<Token>, line: int)
    requires Produced(ScanStr(s, "+", UNKNOWN), Ok(plus), line, s, s1)
    requires plus.None? ==> Produced(ScanStr(s1, "-", UNKNOWN), Ok(sign), line, s1, s2)
    requires plus.Some? ==> sign == plus && s2 == s1
    ensures Produced(ScanSign(s), Ok(sign), line, s, s2)
  {
  }

  /** After 'e' and the optional sign, the exponent is mandatory. */
  lemma MissingExponent(t: seq<Unit>, s1: seq<Unit>, s2: seq<Unit>, s4: seq<Unit>, s5: seq<Unit>,
                        mantissa: Token, e: Token, sign: Option<Token>, line: int)
    requires Produced(ScanNumber(t), Ok(Some(mantissa)), line, t, s1)
    requires Produced(ScanStr(s1, "e", UNKNOWN), Ok(Some(e)), line, s1, s2)
    requires Produced(ScanSign(s2), Ok(sign), line, s2, s4)
    requires Produced(ScanNumber(s4), Ok(None), line, s4, s5)
    ensures ScanScientific(t) == Failure(InvalidNumericExpression)
  {
    DropDrop(t, ScanNumber(t).end, 1);
  }

  /** A number, 'e', the optional sign and the exponent make a FLOAT_LITERAL of their texts. */
  lemma WithExponent(t: seq<Unit>, s1: seq<Unit>, s2: seq<Unit>, s4: seq<Unit>, s5: seq<Unit>,
                     mantissa: Token, e: Token, sign: Option<Token>, exponent: Token, line: int)
    requires Produced(ScanNumber(t), Ok(Some(mantissa)), line, t, s1)
    requires Produced(ScanStr(s1, "e", UNKNOWN), Ok(Some(e)), line, s1, s2)
    requires Produced(ScanSign(s2), Ok(sign), line, s2, s4)
    requires Produced(ScanNumber(s4), Ok(Some(exponent)), line, s4, s5)
    ensures sign.Some? ==>
      Produced(ScanScientific(t), Ok(Some(Token(mantissa.value + "e" + sign.value.value + exponent.value, FLOAT_LITERAL, line))), line, t, s5)
    ensures sign.None? ==>
      Produced(ScanScientific(t), Ok(Some(Token(mantissa.value + "e" + exponent.value, FLOAT_LITERAL, line))), line, t, s5)
  {
    var m := ScanNumber(t).end;
    DropDrop(t, m, 1);
    if sign.Some? {
      DropDrop(t, m + 1, 1);
      DropDrop(t, m + 2, ScanNumber(s4).end);
    } else {
      DropDrop(t, m + 1, ScanNumber(s4).end);
    }
  }

  /** Dropping i units and then j more drops i + j. */
  lemma DropDrop(s: seq<Unit>, i: nat, j: nat)
    requires i + j <= |s|
    ensures s[i..][j..] == s[i + j..]
  {
  }

  /**
   * What one `getNextToken` on an empty token buffer does, given the step the
   * lexical grammar takes on the stream `before`: null at the end, the step's
   * token with its lexeme consumed, or the step's error.
   */
  ghost predicate Stepped(step: Step, r: Result<Option<Token>>, before: seq<Unit>, after: seq<Unit>) {
    match step
    case End => r == Ok(None)
    case Emit(token, end) => end <= |before| && r == Ok(Some(token)) && after == before[end..]
    case Stop(error) => r == Err(error)
  }

  /** A word, or the word routine's error, is the step. */
  lemma WordAt(t: seq<Unit>, line: int, table: map<string, Option<SymbolInfo>>, r: Result<Option<Token>>, after: seq<Unit>)
    requires t != [] && Produced(ScanWord(t), r, line, t, after) && r != Ok(None)
    ensures r.Err? ==> TokenAt(t, line, table) == Stop(r.error)
    ensures r.Ok? ==>
      var word := r.value.value.value;
      Stepped(TokenAt(t, line, table), Ok(Some(Token(word, WordType(word, table), line))), t, after)
  {
  }

  /** Without a word, a number, or the number routine's error, is the step. */
  lemma NumberAt(t: seq<Unit>, line: int, table: map<string, Option<SymbolInfo>>, t1: seq<Unit>,
                 r: Result<Option<Token>>, after: seq<Unit>)
    requires t != [] && Produced(ScanWord(t), Ok(None), line, t, t1)
    requires Produced(ScanScientific(t1), r, line, t1, after) && r != Ok(None)
    ensures Stepped(TokenAt(t, line, table), r, t, after)
  {
  }

  /** Without a word or a number, an operator is the step, and its absence is invalid syntax. */
  lemma OperatorAt(t: seq<Unit>, line: int, table: map<string, Option<SymbolInfo>>, t1: seq<Unit>, t2: seq<Unit>,
                   op: Option<Token>, after: seq<Unit>)
    requires t != [] && Produced(ScanWord(t), Ok(None), line, t, t1)
    requires Produced(ScanScientific(t1), Ok(None), line, t1, t2)
    requires Produced(ScanOperator(t2, table), Ok(op), line, t2, after)
    ensures Stepped(TokenAt(t, line, table), if op.Some? then Ok(op) else Err(SyntaxError(InvalidSyntax, line)), t, after)
  {
  }

  /** The step after the spaces, shifted past them, is the step on the whole stream. */
  lemma NextAfterSpaces(s: seq<Unit>, line: int, table: map<string, Option<SymbolInfo>>, r: Result<Option<Token>>, after: seq<Unit>)
    requires Stepped(TokenAt(AfterSpaces(s), LineAfter(s, line), table), r, AfterSpaces(s), after)
    ensures Stepped(NextToken(s, line, table), r, s, after)
  {
    var k := SpaceEnd(s, 0);
    var step := TokenAt(s[k..], LineAfter(s, line), table);
    if step.Emit? {
      DropDrop(s, k, step.end);
    }
  }

  /** A match that stopped at `i`, short of the end of `str`, on a mismatch or the end of the stream. */
  lemma StrMismatch(s: seq<Unit>, str: string, i: nat)
    requires i < |str| && i <= |s| && (i < |s| ==> s[i] != str[i] as int)
    ensures !StartsWith(s, str)
  {
    if i < |s| {
      assert s[i] != str[i] as int;
    }
  }

  /** The lexer's deque of tokens waiting to be handed out before any new one is read. */
  class TokenDeque {
    var items: seq<Token>

    constructor()
      ensures items == []
    {
      items := [];
    }

    function IsEmpty(): (b: bool)
      reads this
      ensures b <==> items == []
    {
      items == []
    }

    method RemoveFirst() returns (t: Token)
      requires items != []
      modifies this
      ensures t == old(items)[0] && items == old(items)[1..]
    {
      t := items[0];
      items := items[1..];
    }
  }

  class Lexer {
    const charBuffer: CharBuffer
    const tokenBuffer: TokenDeque
    const lexerTable: LexerTable
    var currLine: int

    function Table(): map<string, Option<SymbolInfo>>
      reads lexerTable
    {
      lexerTable.entries
    }

    /** `new Lexer(reader)`, where the reader will deliver `input`; the table is the shared lexer table. */
    constructor(input: seq<Unit>, lexerTable: LexerTable)
      ensures charBuffer.Valid() && charBuffer.stream == input
      ensures this.lexerTable == lexerTable && fresh(charBuffer)
      ensures fresh(tokenBuffer) && tokenBuffer.items == [] && currLine == 1
    {
      charBuffer := new CharBuffer(input);
      this.lexerTable := lexerTable;
      tokenBuffer := new TokenDeque();
      currLine := 1;
    }

    function GetCurrentLine(): (line: int)
      reads this
      ensures line == currLine
    {
      currLine
    }

    /** `isEOS`: true exactly when no unit is left. */
    method IsEOS() returns (b: bool)
      requires charBuffer.Valid()
      modifies charBuffer
      ensures charBuffer.Valid() && charBuffer.stream == old(charBuffer.stream)
      ensures b <==> old(charBuffer.stream) == []
    {
      var c := charBuffer.Peek();
      b := c == EOS;
    }

    /** `skipSpaces`: consumes the leading spaces and counts the line feeds among them. */
    method SkipSpaces()
      requires charBuffer.Valid()
      modifies this, charBuffer
      ensures charBuffer.Valid()
      ensures charBuffer.stream == AfterSpaces(old(charBuffer.stream))
      ensures currLine == old(currLine) + NewLines(old(charBuffer.stream), 0, SpaceEnd(old(charBuffer.stream), 0))
    {
      ghost var s0 := charBuffer.stream;
      ghost var k := 0;
      var c := charBuffer.Peek();
      while c != EOS && IsSpace(c)
        invariant charBuffer.Valid()
        invariant k <= |s0| && charBuffer.stream == s0[k..] && c == At(s0, k)
        invariant SpaceEnd(s0, k) == SpaceEnd(s0, 0)
        invariant currLine == old(currLine) + NewLines(s0, 0, k)
        decreases |s0| - k
      {
        assert c == s0[k];
        NewLinesStep(s0, k);
        if c == '\n' as int {
          currLine := currLine + 1;
        }
        assert Tail(s0[k..]) == s0[k + 1..];
        var consumed := charBuffer.Read();
        k := k + 1;
        c := charBuffer.Peek();
      }
    }

    /** `getAlnumUnderscoreToken`, proved against ScanWord. */
    method GetAlnumUnderscoreToken() returns (r: Result<Option<Token>>)
      requires charBuffer.Valid()
      modifies charBuffer
      ensures charBuffer.Valid()
      ensures Produced(ScanWord(old(charBuffer.stream)), r, currLine, old(charBuffer.stream), charBuffer.stream)
    {
      ghost var s0 := charBuffer.stream;
      var c := charBuffer.Peek();
      if c == EOS || (!IsAlphabetic(c) && c != '_' as int) {
        return Ok(None);
      }
      var tokenStr: string := "";
      var end := false;
      ghost var k := 0;
      while !IsSeparator(c) && !end
        invariant charBuffer.Valid() && k <= |s0| && charBuffer.stream == s0[k..] && c == At(s0, k)
        invariant tokenStr == TextOf(s0[..k])
        invariant !end ==> ScanWordFrom(s0, k) == ScanWordFrom(s0, 0)
        invariant end ==> ScanWordFrom(s0, 0) == EndsAt(k)
        decreases |s0| - k, if end then 0 else 1
      {
        assert c == s0[k];
        if IsAlnumUnderscore(c) {
          TextOfSnoc(s0, k);
          tokenStr := tokenStr + [CharOf(c)];
          assert Tail(s0[k..]) == s0[k + 1..];
          var consumed := charBuffer.Read();
          k := k + 1;
        } else if IsSpecialChar(c) {
          end := true;
        } else {
          return Err(SyntaxError(InvalidCharacter, currLine));
        }
        c := charBuffer.Peek();
      }
      return Ok(Some(Token(tokenStr, UNKNOWN, currLine)));
    }

    /** `getOperatorToken`, proved against ScanOperator: the longest operator munch. */
    method GetOperatorToken() returns (t: Option<Token>)
      requires charBuffer.Valid()
      modifies charBuffer
      ensures charBuffer.Valid()
      ensures Produced(ScanOperator(old(charBuffer.stream), Table()), Ok(t), currLine, old(charBuffer.stream), charBuffer.stream)
    {
      ghost var s0 := charBuffer.stream;
      var tokenStr: string := "";
      var savedSymbol: Option<SymbolInfo> := None;
      var end := false;
      ghost var k := 0;
      var c := charBuffer.Peek();
      while c != EOS && !end
        invariant charBuffer.Valid() && k <= |s0| && charBuffer.stream == s0[k..] && c == At(s0, k)
        invariant tokenStr == TextOf(s0[..k])
        invariant !end ==> OperatorEnd(s0, k, Table()) == OperatorEnd(s0, 0, Table())
        invariant end ==> OperatorEnd(s0, 0, Table()) == k
        invariant k > 0 ==> savedSymbol == Lookup(Table(), tokenStr) && IsOperatorEntry(savedSymbol)
        decreases |s0| - k, if end then 0 else 1
      {
        assert c == s0[k];
        TextOfSnoc(s0, k);
        var str := tokenStr + [CharOf(c)];
        var tempSymbol := lexerTable.Get(str);
        end := tempSymbol.None?;
        if !end {
          end := tempSymbol.value.Kind() != OPERATOR;
        }
        if !end {
          tokenStr := tokenStr + [CharOf(c)];
          savedSymbol := tempSymbol;
          assert Tail(s0[k..]) == s0[k + 1..];
          var consumed := charBuffer.Read();
          k := k + 1;
        }
        c := charBuffer.Peek();
      }
      OperatorScanned(s0, k, tokenStr, savedSymbol, Table());
      if tokenStr == "" {
        return None;
      }
      return Some(Token(tokenStr, savedSymbol.value.tokenType, currLine));
    }

    /** `getStrToken`, proved against ScanStr: a partial match is put back. */
    method GetStrToken(strToMatch: string, tokenType: TokenType) returns (t: Option<Token>)
      requires charBuffer.Valid() && IsUnits(strToMatch)
      modifies charBuffer
      ensures charBuffer.Valid()
      ensures Produced(ScanStr(old(charBuffer.stream), strToMatch, tokenType), Ok(t), currLine, old(charBuffer.stream), charBuffer.stream)
    {
      ghost var s0 := charBuffer.stream;
      var i := 0;
      var end := false;
      var buffer: string := "";
      while i < |strToMatch| && !end
        invariant charBuffer.Valid() && i <= |strToMatch| && i <= |s0| && charBuffer.stream == s0[i..]
        invariant |buffer| == i && forall j | 0 <= j < i :: buffer[j] == strToMatch[j] && s0[j] == buffer[j] as int
        invariant end ==> i < |s0| && i < |strToMatch| && s0[i] != strToMatch[i] as int
        decreases |strToMatch| - i, if end then 0 else 1
      {
        var c := charBuffer.Peek();
        if c == EOS {
          break;
        }
        assert c == s0[i];
        end := CharOf(c) != strToMatch[i];
        if !end {
          buffer := buffer + [CharOf(c)];
          assert Tail(s0[i..]) == s0[i + 1..];
          i := i + 1;
          var consumed := charBuffer.Read();
        }
      }
      assert i == |strToMatch| ==> buffer == strToMatch;
      if strToMatch != buffer {
        StrMismatch(s0, strToMatch, i);
        if buffer != "" {
          PutBackRestores(s0, buffer);
          var pushed := charBuffer.PutBack(Some(buffer));
        }
        assert charBuffer.stream == s0;
        return None;
      }
      assert StartsWith(s0, strToMatch) by {
        assert i == |strToMatch|;
      }
      return Some(Token(strToMatch, tokenType, currLine));
    }

    /** `getDigitSeqToken`, proved against ScanDigits. */
    method GetDigitSeqToken() returns (t: Option<Token>)
      requires charBuffer.Valid()
      modifies charBuffer
      ensures charBuffer.Valid()
      ensures Produced(ScanDigits(old(charBuffer.stream)), Ok(t), currLine, old(charBuffer.stream), charBuffer.stream)
    {
      ghost var s0 := charBuffer.stream;
      ghost var k := 0;
      var tokenStr: string := "";
      var c := charBuffer.Peek();
      while c != EOS && IsDigit(c)
        invariant charBuffer.Valid() && k <= |s0| && charBuffer.stream == s0[k..] && c == At(s0, k)
        invariant tokenStr == TextOf(s0[..k])
        invariant DigitsEnd(s0, k) == DigitsEnd(s0, 0)
        decreases |s0| - k
      {
        assert c == s0[k];
        TextOfSnoc(s0, k);
        tokenStr := tokenStr + [CharOf(c)];
        assert Tail(s0[k..]) == s0[k + 1..];
        var consumed := charBuffer.Read();
        k := k + 1;
        c := charBuffer.Peek();
      }
      if tokenStr == "" {
        return None;
      }
      return Some(Token(tokenStr, INT_LITERAL, currLine));
    }

    /** `getNumberToken`, proved against ScanNumber: missing digits read as "0". */
    method GetNumberToken() returns (t: Option<Token>)
      requires charBuffer.Valid()
      modifies charBuffer
      ensures charBuffer.Valid()
      ensures Produced(ScanNumber(old(charBuffer.stream)), Ok(t), currLine, old(charBuffer.stream), charBuffer.stream)
    {
      ghost var s0 := charBuffer.stream;
      var tokenStr: string;
      var intToken := GetDigitSeqToken();
      ghost var s1 := charBuffer.stream;
      var missingInt := intToken.None?;
      if missingInt {
        tokenStr := "0";
      } else {
        tokenStr := intToken.value.value;
      }
      var decPointToken := GetStrToken(".", UNKNOWN);
      ghost var s2 := charBuffer.stream;
      var missingDecPoint := decPointToken.None?;
      if !missingDecPoint {
        tokenStr := tokenStr + ".";
      }
      if missingInt && missingDecPoint {
        NumberFromParts(s0, s1, s2, s2, intToken, decPointToken, None, currLine);
        return None;
      }
      ghost var fraction: Option<Token> := None;
      if !missingDecPoint {
        var fractionToken := GetDigitSeqToken();
        fraction := fractionToken;
        if fractionToken.None? {
          tokenStr := tokenStr + "0";
        } else {
          tokenStr := tokenStr + fractionToken.value.value;
        }
      }
      NumberFromParts(s0, s1, s2, charBuffer.stream, intToken, decPointToken, fraction, currLine);
      var tokenType := if missingDecPoint then INT_LITERAL else FLOAT_LITERAL;
      return Some(Token(tokenStr, tokenType, currLine));
    }

    /**
     * `getScientificNumberToken`, proved against ScanScientific on the stream
     * after the spaces it skips first.
     */
    method GetScientificNumberToken() returns (r: Result<Option<Token>>)
      requires charBuffer.Valid()
      modifies this, charBuffer
      ensures charBuffer.Valid()
      ensures currLine == old(currLine) + NewLines(old(charBuffer.stream), 0, SpaceEnd(old(charBuffer.stream), 0))
      ensures Produced(ScanScientific(AfterSpaces(old(charBuffer.stream))), r, currLine, AfterSpaces(old(charBuffer.stream)), charBuffer.stream)
    {
      SkipSpaces();
      ghost var t := charBuffer.stream;
      var tempToken := GetNumberToken();
      if tempToken.None? {
        return Ok(None);
      }
      ghost var mantissa := tempToken.value;
      ghost var s1 := charBuffer.stream;
      var tokenStr := tempToken.value.value;
      var tokenType := tempToken.value.tokenType;
      tempToken := GetStrToken("e", UNKNOWN);
      ghost var s2 := charBuffer.stream;
      if tempToken.None? {
        NoExponent(t, s1, s2, mantissa, currLine);
        var c := charBuffer.Peek();
        if c == EOS || IsSpace(c) || (IsSpecialChar(c) && c != '.' as int) {
          return Ok(Some(Token(tokenStr, tokenType, currLine)));
        }
        return Err(SyntaxError(InvalidNumericExpression, currLine));
      }
      ghost var e := tempToken.value;
      tokenStr := tokenStr + "e";
      tempToken := GetStrToken("+", UNKNOWN);
      ghost var plus := tempToken;
      ghost var s3 := charBuffer.stream;
      if tempToken.None? {
        tempToken := GetStrToken("-", UNKNOWN);
        if tempToken.Some? {
          tokenStr := tokenStr + tempToken.value.value;
        }
      } else {
        tokenStr := tokenStr + tempToken.value.value;
      }
      ghost var sign := tempToken;
      ghost var s4 := charBuffer.stream;
      SignFromParts(s2, s3, s4, plus, sign, currLine);
      tempToken := GetNumberToken();
      if tempToken.None? {
        MissingExponent(t, s1, s2, s4, charBuffer.stream, mantissa, e, sign, currLine);
        return Err(SyntaxError(InvalidNumericExpression, currLine));
      }
      WithExponent(t, s1, s2, s4, charBuffer.stream, mantissa, e, sign, tempToken.value, currLine);
      tokenStr := tokenStr + tempToken.value.value;
      return Ok(Some(Token(tokenStr, FLOAT_LITERAL, currLine)));
    }

    /**
     * `getNextToken`: a buffered token first; otherwise the step of the lexical
     * grammar on the stream, on the line reached after the spaces.
     */
    method GetNextToken() returns (r: Result<Option<Token>>)
      requires charBuffer.Valid()
      modifies this, charBuffer, tokenBuffer
      ensures charBuffer.Valid()
      ensures old(tokenBuffer.items) != [] ==>
        r == Ok(Some(old(tokenBuffer.items)[0])) && tokenBuffer.items == old(tokenBuffer.items)[1..] &&
        charBuffer.stream == old(charBuffer.stream) && currLine == old(currLine)
      ensures old(tokenBuffer.items) == [] ==>
        tokenBuffer.items == [] && currLine == LineAfter(old(charBuffer.stream), old(currLine)) &&
        Stepped(NextToken(old(charBuffer.stream), old(currLine), Table()), r, old(charBuffer.stream), charBuffer.stream)
    {
      if !tokenBuffer.IsEmpty() {
        var first := tokenBuffer.RemoveFirst();
        return Ok(Some(first));
      }
      ghost var s0 := charBuffer.stream;
      SkipSpaces();
      r := TokenAfterSpaces();
      NextAfterSpaces(s0, old(currLine), Table(), r, charBuffer.stream);
    }

    /** The part of `getNextToken` after the spaces are skipped. */
    method TokenAfterSpaces() returns (r: Result<Option<Token>>)
      requires charBuffer.Valid()
      requires charBuffer.stream == AfterSpaces(charBuffer.stream)
      modifies this, charBuffer
      ensures charBuffer.Valid() && currLine == old(currLine)
      ensures Stepped(TokenAt(old(charBuffer.stream), currLine, Table()), r, old(charBuffer.stream), charBuffer.stream)
    {
      ghost var t := charBuffer.stream;
      var c := charBuffer.Peek();
      if c == EOS {
        return Ok(None);
      }
      var token := GetAlnumUnderscoreToken();
      if token.Err? {
        WordAt(t, currLine, Table(), token, charBuffer.stream);
        return Err(token.error);
      }
      if token.value.Some? {
        var typed := TypeWord(token.value.value);
        r := Ok(Some(typed));
        WordAt(t, currLine, Table(), token, charBuffer.stream);
        return;
      }
      AfterSpacesTwice(t);
      ghost var t1 := charBuffer.stream;
      r := GetScientificNumberToken();
      if r != Ok(None) {
        NumberAt(t, currLine, Table(), t1, r, charBuffer.stream);
        return;
      }
      ghost var t2 := charBuffer.stream;
      var op := GetOperatorToken();
      OperatorAt(t, currLine, Table(), t1, t2, op, charBuffer.stream);
      if op.Some? {
        r := Ok(op);
      } else {
        r := Err(SyntaxError(InvalidSyntax, currLine));
      }
    }

    /** The word's type from the lexer table: a var when the table has no entry. */
    method TypeWord(word: Token) returns (typed: Token)
      ensures typed == Token(word.value, WordType(word.value, Table()), word.lineNumber)
    {
      var symbol := lexerTable.Get(word.value);
      if symbol.None? {
        // If the key cannot be found in the lexer table, it is a var
        typed := SetTokenType(word, VAR);
      } else if symbol.value.Kind() == KEYWORD {
        typed := SetTokenType(word, symbol.value.TokenTypeOf());
      } else {
        typed := SetTokenType(word, symbol.value.TokenTypeOf());
      }
    }
  }
}
