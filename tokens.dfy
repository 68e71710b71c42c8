/**
 * Tokens: a lexeme, its token type and the line it was read on.
 *
 * The repository carries two revisions of the token-type enumeration: the one
 * the lexer and the reserved-symbol registries use (VAR, MUTABLE_ID_DECL, ...)
 * and the one the parsers use (ID, VAR_DECL, EOF, ...). `TokenType` is their
 * union, so that both halves of the front end can be stated over one type.
 */
module Tokens {

  datatype TokenType =
    // keywords and type names
    | MUTABLE_ID_DECL | IMMUTABLE_ID_DECL | VAR_DECL | CONST_DECL
    | BOOL_TRUE | BOOL_FALSE
    | INT_TYPE_ID | FLOAT_TYPE_ID | BOOL_TYPE_ID | TYPE_ID
    // literals and names
    | INT_LITERAL | FLOAT_LITERAL | BOOL_LITERAL | VAR | ID
    // operators and punctuation
    | ADD | SUB | MULT | DIV | MOD | POW
    | BITWISE_NOT | BITWISE_AND | BITWISE_OR
    | LOGICAL_NOT | LOGICAL_AND | LOGICAL_OR
    | EQ | ASSIGNMENT
    | DOT | COLON | SEMICOLON | LPAREN | RPAREN | LBRACKETS | RBRACKETS
    // bookkeeping
    | EOF | UNKNOWN

  /** The enumeration constant's name, as Java's `name()` returns it. */
  function Name(t: TokenType): string {
    match t
    case MUTABLE_ID_DECL => "MUTABLE_ID_DECL"
    case IMMUTABLE_ID_DECL => "IMMUTABLE_ID_DECL"
    case VAR_DECL => "VAR_DECL"
    case CONST_DECL => "CONST_DECL"
    case BOOL_TRUE => "BOOL_TRUE"
    case BOOL_FALSE => "BOOL_FALSE"
    case INT_TYPE_ID => "INT_TYPE_ID"
    case FLOAT_TYPE_ID => "FLOAT_TYPE_ID"
    case BOOL_TYPE_ID => "BOOL_TYPE_ID"
    case TYPE_ID => "TYPE_ID"
    case INT_LITERAL => "INT_LITERAL"
    case FLOAT_LITERAL => "FLOAT_LITERAL"
    case BOOL_LITERAL => "BOOL_LITERAL"
    case VAR => "VAR"
    case ID => "ID"
    case ADD => "ADD"
    case SUB => "SUB"
    case MULT => "MULT"
    case DIV => "DIV"
    case MOD => "MOD"
    case POW => "POW"
    case BITWISE_NOT => "BITWISE_NOT"
    case BITWISE_AND => "BITWISE_AND"
    case BITWISE_OR => "BITWISE_OR"
    case LOGICAL_NOT => "LOGICAL_NOT"
    case LOGICAL_AND => "LOGICAL_AND"
    case LOGICAL_OR => "LOGICAL_OR"
    case EQ => "EQ"
    case ASSIGNMENT => "ASSIGNMENT"
    case DOT => "DOT"
    case COLON => "COLON"
    case SEMICOLON => "SEMICOLON"
    case LPAREN => "LPAREN"
    case RPAREN => "RPAREN"
    case LBRACKETS => "LBRACKETS"
    case RBRACKETS => "RBRACKETS"
    case EOF => "EOF"
    case UNKNOWN => "UNKNOWN"
  }

  /**
   * The constant a name belongs to, told apart by the name's length, first
   * and last letter, which no two names share.
   */
  function FromSignature(length: int, first: char, last: char): TokenType {
    if length == 15 && first == 'M' && last == 'L' then MUTABLE_ID_DECL
    else if length == 17 && first == 'I' && last == 'L' then IMMUTABLE_ID_DECL
    else if length == 8 && first == 'V' && last == 'L' then VAR_DECL
    else if length == 10 && first == 'C' && last == 'L' then CONST_DECL
    else if length == 9 && first == 'B' && last == 'E' then BOOL_TRUE
    else if length == 10 && first == 'B' && last == 'E' then BOOL_FALSE
    else if length == 11 && first == 'I' && last == 'D' then INT_TYPE_ID
    else if length == 13 && first == 'F' && last == 'D' then FLOAT_TYPE_ID
    else if length == 12 && first == 'B' && last == 'D' then BOOL_TYPE_ID
    else if length == 7 && first == 'T' && last == 'D' then TYPE_ID
    else if length == 11 && first == 'I' && last == 'L' then INT_LITERAL
    else if length == 13 && first == 'F' && last == 'L' then FLOAT_LITERAL
    else if length == 12 && first == 'B' && last == 'L' then BOOL_LITERAL
    else if length == 3 && first == 'V' && last == 'R' then VAR
    else if length == 2 && first == 'I' && last == 'D' then ID
    else if length == 3 && first == 'A' && last == 'D' then ADD
    else if length == 3 && first == 'S' && last == 'B' then SUB
    else if length == 4 && first == 'M' && last == 'T' then MULT
    else if length == 3 && first == 'D' && last == 'V' then DIV
    else if length == 3 && first == 'M' && last == 'D' then MOD
    else if length == 3 && first == 'P' && last == 'W' then POW
    else if length == 11 && first == 'B' && last == 'T' then BITWISE_NOT
    else if length == 11 && first == 'B' && last == 'D' then BITWISE_AND
    else if length == 10 && first == 'B' && last == 'R' then BITWISE_OR
    else if length == 11 && first == 'L' && last == 'T' then LOGICAL_NOT
    else if length == 11 && first == 'L' && last == 'D' then LOGICAL_AND
    else if length == 10 && first == 'L' && last == 'R' then LOGICAL_OR
    else if length == 2 && first == 'E' && last == 'Q' then EQ
    else if length == 10 && first == 'A' && last == 'T' then ASSIGNMENT
    else if length == 3 && first == 'D' && last == 'T' then DOT
    else if length == 5 && first == 'C' && last == 'N' then COLON
    else if length == 9 && first == 'S' && last == 'N' then SEMICOLON
    else if length == 6 && first == 'L' && last == 'N' then LPAREN
    else if length == 6 && first == 'R' && last == 'N' then RPAREN
    else if length == 9 && first == 'L' && last == 'S' then LBRACKETS
    else if length == 9 && first == 'R' && last == 'S' then RBRACKETS
    else if length == 3 && first == 'E' && last == 'F' then EOF
    else UNKNOWN
  }

  /** `ordinal()`: the constant's position in the declaration. */
  function Ordinal(t: TokenType): nat {
    match t
    case MUTABLE_ID_DECL => 0
    case IMMUTABLE_ID_DECL => 1
    case VAR_DECL => 2
    case CONST_DECL => 3
    case BOOL_TRUE => 4
    case BOOL_FALSE => 5
    case INT_TYPE_ID => 6
    case FLOAT_TYPE_ID => 7
    case BOOL_TYPE_ID => 8
    case TYPE_ID => 9
    case INT_LITERAL => 10
    case FLOAT_LITERAL => 11
    case BOOL_LITERAL => 12
    case VAR => 13
    case ID => 14
    case ADD => 15
    case SUB => 16
    case MULT => 17
    case DIV => 18
    case MOD => 19
    case POW => 20
    case BITWISE_NOT => 21
    case BITWISE_AND => 22
    case BITWISE_OR => 23
    case LOGICAL_NOT => 24
    case LOGICAL_AND => 25
    case LOGICAL_OR => 26
    case EQ => 27
    case ASSIGNMENT => 28
    case DOT => 29
    case COLON => 30
    case SEMICOLON => 31
    case LPAREN => 32
    case RPAREN => 33
    case LBRACKETS => 34
    case RBRACKETS => 35
    case EOF => 36
    case UNKNOWN => 37
  }

  /** `SignatureOfName` for the constants MUTABLE_ID_DECL to TYPE_ID. */
  lemma SignatureOfNameA(t: TokenType)
    requires 0 <= Ordinal(t) < 10
    ensures var n := Name(t); |n| > 0 && FromSignature(|n|, n[0], n[|n| - 1]) == t
  {
  }

  /** `SignatureOfName` for the constants INT_LITERAL to MOD. */
  lemma SignatureOfNameB(t: TokenType)
    requires 10 <= Ordinal(t) < 20
    ensures var n := Name(t); |n| > 0 && FromSignature(|n|, n[0], n[|n| - 1]) == t
  {
  }

  /** `SignatureOfName` for the constants POW to DOT. */
  lemma SignatureOfNameC(t: TokenType)
    requires 20 <= Ordinal(t) < 30
    ensures var n := Name(t); |n| > 0 && FromSignature(|n|, n[0], n[|n| - 1]) == t
  {
  }

  /** `SignatureOfName` for the constants COLON to UNKNOWN. */
  lemma SignatureOfNameD(t: TokenType)
    requires 30 <= Ordinal(t) < 38
    ensures var n := Name(t); |n| > 0 && FromSignature(|n|, n[0], n[|n| - 1]) == t
  {
  }

  /** Each name's signature leads back to its constant. */
  lemma SignatureOfName(t: TokenType)
    ensures var n := Name(t); |n| > 0 && FromSignature(|n|, n[0], n[|n| - 1]) == t
  {
    if Ordinal(t) < 10 {
      SignatureOfNameA(t);
    } else if Ordinal(t) < 20 {
      SignatureOfNameB(t);
    } else if Ordinal(t) < 30 {
      SignatureOfNameC(t);
    } else {
      SignatureOfNameD(t);
    }
  }

  /** Distinct constants have distinct names, so a name identifies its constant. */
  lemma NameInjective(t: TokenType, u: TokenType)
    ensures Name(t) == Name(u) <==> t == u
  {
    SignatureOfName(t);
    SignatureOfName(u);
  }

  /** A token. Its value and line are final; its type is the only field a setter changes. */
  datatype Token = Token(value: string, tokenType: TokenType, lineNumber: int)

  /** The two-argument constructor: the line defaults to 1. */
  function TypedToken(value: string, tokenType: TokenType): (t: Token)
    ensures t.value == value && t.tokenType == tokenType && t.lineNumber == 1
  {
    Token(value, tokenType, 1)
  }

  /** The one-argument constructor: the type defaults to UNKNOWN and the line to 1. */
  function UntypedToken(value: string): (t: Token)
    ensures t == TypedToken(value, UNKNOWN)
  {
    Token(value, UNKNOWN, 1)
  }

  /** `setTokenType`: the token afterwards, with value and line kept. */
  function SetTokenType(t: Token, tokenType: TokenType): (u: Token)
    ensures u.tokenType == tokenType
    ensures u.value == t.value && u.lineNumber == t.lineNumber
  {
    t.(tokenType := tokenType)
  }

  /** `equals`: same value and same type; the line takes no part. */
  predicate Equals(t: Token, u: Token) {
    t.value == u.value && t.tokenType == u.tokenType
  }

  /** Token equality is an equivalence that ignores the line number. */
  lemma EqualsIsEquivalence(t: Token, u: Token, w: Token)
    ensures Equals(t, t)
    ensures Equals(t, u) ==> Equals(u, t)
    ensures Equals(t, u) && Equals(u, w) ==> Equals(t, w)
    ensures Equals(t, u) <==> t.(lineNumber := 0) == u.(lineNumber := 0)
  {
  }

  /**
   * A token built with the two-argument constructor equals every token with
   * the same value and type, whatever line that token was read on.
   */
  lemma TypedTokenMatchesAnyLine(value: string, tokenType: TokenType, line: int)
    ensures Equals(TypedToken(value, tokenType), Token(value, tokenType, line))
    ensures line != 1 ==> TypedToken(value, tokenType) != Token(value, tokenType, line)
  {
  }

  /** Setting the type a token already has gives back an equal token; setting another type never does. */
  lemma SetTokenTypeEquals(t: Token, tokenType: TokenType)
    ensures Equals(SetTokenType(t, tokenType), t) <==> tokenType == t.tokenType
  {
  }
}
