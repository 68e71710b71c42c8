/**
 * What every parser shares (`Parser.BaseParser`): the lexer, seen through
 * its lookahead and consume operations, and the conditional consume
 * `parseTok`. The lexer is represented by the tokens it will hand out, in
 * order, followed by an endless EOF token on the last line; a cursor marks
 * the lookahead.
 */
module BaseParsers {
  import opened Wrappers
  import opened Tokens

  /** The tokens the lexer will produce and the line it is on when the input ends. */
  datatype TokenStream = TokenStream(tokens: seq<Token>, eofLine: int)

  /** The lookahead at a position: the token there, or EOF once the tokens are used up. */
  function Look(s: TokenStream, pos: nat): (t: Token)
    ensures pos < |s.tokens| ==> t == s.tokens[pos]
    ensures pos >= |s.tokens| ==> t.tokenType == EOF && t.lineNumber == s.eofLine
  {
    if pos < |s.tokens| then s.tokens[pos] else Token("", EOF, s.eofLine)
  }

  /** The lexer's current line while `pos` is the lookahead: the lookahead token's line. */
  function LineAt(s: TokenStream, pos: nat): int {
    Look(s, pos).lineNumber
  }

  /** The position after consuming the lookahead: EOF is never consumed past. */
  function Next(s: TokenStream, pos: nat): (p: nat)
    ensures pos < |s.tokens| ==> p == pos + 1
    ensures pos >= |s.tokens| ==> p == pos
  {
    if pos < |s.tokens| then pos + 1 else pos
  }

  /** A lookahead that is not EOF is a real token, so consuming it advances. */
  lemma NotEofAdvances(s: TokenStream, pos: nat)
    requires Look(s, pos).tokenType != EOF
    ensures pos < |s.tokens| && Next(s, pos) == pos + 1
  {
  }

  /** The lexer as the parsers use it: the token stream and the lookahead position. */
  class TokenCursor {
    const stream: TokenStream
    var pos: nat

    ghost predicate Valid()
      reads this
    {
      pos <= |stream.tokens|
    }

    constructor (stream: TokenStream)
      ensures this.stream == stream && pos == 0 && Valid()
    {
      this.stream := stream;
      pos := 0;
    }

    /** `lookahead`: the next token, not consumed. */
    function Lookahead(): Token
      reads this
    {
      Look(stream, pos)
    }

    /** `getCurrLine`. */
    function CurrLine(): int
      reads this
    {
      LineAt(stream, pos)
    }

    /** `consume`: hand out the lookahead and move past it. */
    method Consume() returns (t: Token)
      requires Valid()
      modifies this
      ensures Valid()
      ensures t == Look(stream, old(pos)) && pos == Next(stream, old(pos))
    {
      t := Look(stream, pos);
      pos := Next(stream, pos);
    }
  }

  /** `parseTok`: the lookahead and one step on when its type is the expected one; null and no step otherwise. */
  method ParseTok(lexer: TokenCursor, tokType: TokenType) returns (tok: Option<Token>)
    requires lexer.Valid()
    modifies lexer
    ensures lexer.Valid()
    ensures Look(lexer.stream, old(lexer.pos)).tokenType == tokType ==>
      tok == Some(Look(lexer.stream, old(lexer.pos))) && lexer.pos == Next(lexer.stream, old(lexer.pos))
    ensures Look(lexer.stream, old(lexer.pos)).tokenType != tokType ==>
      tok == None && lexer.pos == old(lexer.pos)
  {
    var t := lexer.Lookahead();
    if t.tokenType != tokType {
      return None;
    }
    var consumed := lexer.Consume();
    return Some(t);
  }
}
