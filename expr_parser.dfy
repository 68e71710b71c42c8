/**
 * `Parser.ExprParser` as the Java code runs it: methods that look at the
 * shared token cursor, consume from it and build the tree. Each method is
 * proved to do what the grammar function of the same name says, from the
 * cursor position it starts at.
 */
module ExprParsers {
  import opened Wrappers
  import opened Exceptions
  import opened Tokens
  import opened Types
  import opened Operators
  import opened Scopes
  import opened Nodes
  import opened BaseParsers
  import opened ExprGrammar

  /** A method's outcome `r`, with the cursor left at `pos`, is the grammar's result `spec`. */
  predicate Agrees(r: Result<Option<Expr>>, pos: nat, spec: Result<Parsed>) {
    match spec
    case Ok(p) => r == Ok(p.node) && pos == p.pos
    case Err(e) => r == Err(e)
  }

  class ExprParser {
    const lexer: TokenCursor
    /** The operator compatibility table the analysis consults. */
    const compat: map<CompatKey, TypeInfo>

    constructor (lexer: TokenCursor, compat: map<CompatKey, TypeInfo>)
      ensures this.lexer == lexer && this.compat == compat
    {
      this.lexer := lexer;
      this.compat := compat;
    }

    /** `parsePrefixOp`: a prefix operator is consumed and returned; anything else is left alone. */
    method ParsePrefixOp() returns (op: Option<Token>)
      requires lexer.Valid()
      modifies lexer
      ensures lexer.Valid()
      ensures IsPrefix(Look(lexer.stream, old(lexer.pos)).tokenType) ==>
        op == Some(Look(lexer.stream, old(lexer.pos))) && lexer.pos == old(lexer.pos) + 1
      ensures !IsPrefix(Look(lexer.stream, old(lexer.pos)).tokenType) ==> op == None && lexer.pos == old(lexer.pos)
    {
      var tok := lexer.Lookahead();
      if !IsPrefix(tok.tokenType) {
        return None;
      }
      var _ := lexer.Consume();
      return Some(tok);
    }

    /** `parseId`: not an identifier gives nothing; an unbound one fails; a bound one is consumed as a variable node. */
    method ParseId(scope: Block) returns (r: Result<Option<Expr>>)
      requires lexer.Valid()
      modifies lexer
      ensures lexer.Valid()
      ensures var t := Look(lexer.stream, old(lexer.pos));
        t.tokenType != ID ==> r == Ok(None) && lexer.pos == old(lexer.pos)
      ensures var t := Look(lexer.stream, old(lexer.pos));
        t.tokenType == ID && GetSymbol(scope, t.value).None? ==>
          r == Err(SyntaxError(InvalidId, LineAt(lexer.stream, old(lexer.pos))))
      ensures var t := Look(lexer.stream, old(lexer.pos));
        t.tokenType == ID && GetSymbol(scope, t.value).Some? ==>
          var v := GetSymbol(scope, t.value).value;
          r == Ok(Some(Var(t, v.dataType, v.mutable))) && lexer.pos == old(lexer.pos) + 1
    {
      var tok := lexer.Lookahead();
      if tok.tokenType != ID {
        return Ok(None);
      }
      var varInfo := GetSymbol(scope, tok.value);
      if varInfo.None? {
        return Err(SyntaxError(InvalidId, lexer.CurrLine()));
      }
      var _ := lexer.Consume();
      return Ok(Some(Var(tok, varInfo.value.dataType, varInfo.value.mutable)));
    }

    /** `parseLiteral`: a token the type table maps to a type is consumed as a literal of that type. */
    method ParseLiteral() returns (node: Option<Expr>)
      requires lexer.Valid()
      modifies lexer
      ensures lexer.Valid()
      ensures var t := Look(lexer.stream, old(lexer.pos));
        LiteralType(t.tokenType).Some? ==>
          node == Some(Literal(t, LiteralType(t.tokenType).value)) && lexer.pos == old(lexer.pos) + 1
      ensures LiteralType(Look(lexer.stream, old(lexer.pos)).tokenType).None? ==> node == None && lexer.pos == old(lexer.pos)
    {
      var tok := lexer.Lookahead();
      var dataType := LiteralType(tok.tokenType);
      if dataType.None? {
        return None;
      }
      var _ := lexer.Consume();
      return Some(Literal(tok, dataType.value));
    }

    /** `parseParenExpr`. */
    method ParseParenExpr(scope: Block) returns (r: Result<Option<Expr>>)
      requires lexer.Valid()
      modifies lexer
      decreases |lexer.stream.tokens| - lexer.pos, 0
      ensures lexer.Valid()
      ensures Agrees(r, lexer.pos, Paren(lexer.stream, scope, old(lexer.pos)))
    {
      var lparen := ParseTok(lexer, LPAREN);
      if lparen.None? {
        return Ok(None);
      }
      var exprNode := RecurParseInfixExpr(scope, None, true);
      if exprNode.Err? {
        return exprNode;
      }
      var rparen := ParseTok(lexer, RPAREN);
      if rparen.None? {
        return Err(SyntaxError(MissingRParen, lexer.CurrLine()));
      }
      return exprNode;
    }

    /** `parsePrimaryExpr`: an identifier, else a literal, else a parenthesized expression. */
    method ParsePrimaryExpr(scope: Block) returns (r: Result<Option<Expr>>)
      requires lexer.Valid()
      modifies lexer
      decreases |lexer.stream.tokens| - lexer.pos, 1
      ensures lexer.Valid()
      ensures Agrees(r, lexer.pos, Primary(lexer.stream, scope, old(lexer.pos)))
    {
      var node := ParseId(scope);
      if node.Err? || node.value.Some? {
        return node;
      }
      var literal := ParseLiteral();
      if literal.Some? {
        return Ok(literal);
      }
      r := ParseParenExpr(scope);
    }

    /**
     * `parsePostfixExpr`. The table's postfix set is empty (`Operators.Fixities`),
     * so `parsePostfixOp` never consumes and the primary expression is the result.
     */
    method ParsePostfixExpr(scope: Block) returns (r: Result<Option<Expr>>)
      requires lexer.Valid()
      modifies lexer
      decreases |lexer.stream.tokens| - lexer.pos, 2
      ensures lexer.Valid()
      ensures Agrees(r, lexer.pos, Postfix(lexer.stream, scope, old(lexer.pos)))
    {
      r := ParsePrimaryExpr(scope);
    }

    /**
     * The `while` loop of `parsePrefixExpr`: `parsePrefixOp` until it gives
     * null, each operator hung below the one before it.
     */
    method ParsePrefixOps() returns (ops: seq<Token>)
      requires lexer.Valid()
      modifies lexer
      ensures lexer.Valid()
      ensures ops == PrefixOps(lexer.stream, old(lexer.pos)) && lexer.pos == old(lexer.pos) + |ops|
    {
      ghost var s, start := lexer.stream, lexer.pos;
      // `mark` is where the lookahead was when `op` was read
      ops := [];
      ghost var mark := lexer.pos;
      var op := ParsePrefixOp();
      while op.Some?
        invariant lexer.Valid() && start <= mark <= lexer.pos && mark == start + |ops|
        invariant PrefixOps(s, start) == ops + PrefixOps(s, mark)
        invariant op.Some? ==> op.value == Look(s, mark) && IsPrefix(op.value.tokenType) && lexer.pos == mark + 1
        invariant op.None? ==> !IsPrefix(Look(s, mark).tokenType) && lexer.pos == mark
        decreases |s.tokens| - mark
      {
        ops := ops + [op.value];
        mark := lexer.pos;
        op := ParsePrefixOp();
      }
    }

    /** `parsePrefixExpr`: prefix operators one by one, then the postfix expression they apply to. */
    method ParsePrefixExpr(scope: Block) returns (r: Result<Option<Expr>>)
      requires lexer.Valid()
      modifies lexer
      decreases |lexer.stream.tokens| - lexer.pos, 3
      ensures lexer.Valid()
      ensures Agrees(r, lexer.pos, Prefix(lexer.stream, scope, old(lexer.pos)))
    {
      var ops := ParsePrefixOps();
      var operand := ParsePostfixExpr(scope);
      if operand.Err? || ops == [] {
        r := operand;
      } else if operand.value.None? {
        r := Err(SyntaxError(ExpectedExprAfterPrefix, lexer.CurrLine()));
      } else {
        r := Ok(Some(Chain(ops, operand.value.value)));
      }
    }

    /**
     * `recurParseInfixExpr`: the left operand, then the `while (true)` loop
     * over the operators that follow it. The loop keeps the grammar's
     * result equal to the rest of the loop from the current lookahead.
     */
    method RecurParseInfixExpr(scope: Block, prevOp: Option<Token>, inParen: bool) returns (r: Result<Option<Expr>>)
      requires lexer.Valid()
      modifies lexer
      decreases |lexer.stream.tokens| - lexer.pos, 5
      ensures lexer.Valid()
      ensures Agrees(r, lexer.pos, Infix(lexer.stream, scope, old(lexer.pos), prevOp, inParen))
    {
      ghost var s, start := lexer.stream, lexer.pos;
      ghost var spec := Infix(s, scope, start, prevOp, inParen);
      var left := ParsePrefixExpr(scope);
      if left.Err? {
        return left;
      }
      var currLeft := left.value;
      while true
        invariant lexer.Valid() && start <= lexer.pos && currLeft != Some(Empty)
        invariant spec == InfixLoop(s, scope, lexer.pos, prevOp, inParen, currLeft)
        decreases |s.tokens| - lexer.pos
      {
        var opTok := lexer.Lookahead();
        var opType := opTok.tokenType;
        if opType == EOF {
          if prevOp.Some? {
            if currLeft.None? {
              return Err(SyntaxError(ExpectedOperandAfter, lexer.CurrLine()));
            } else if inParen {
              return Err(SyntaxError(MissingRParen, lexer.CurrLine()));
            } else {
              return Err(SyntaxError(MissingSemicolon, lexer.CurrLine()));
            }
          } else {
            if currLeft.None? {
              return Ok(None);
            } else if inParen {
              return Err(SyntaxError(MissingRParen, lexer.CurrLine()));
            } else {
              return Err(SyntaxError(MissingSemicolon, lexer.CurrLine()));
            }
          }
        }
        if opType == SEMICOLON {
          if prevOp.Some? {
            if currLeft.None? {
              return Err(SyntaxError(ExpectedOperandAfter, lexer.CurrLine()));
            } else if inParen {
              return Err(SyntaxError(MissingRParen, lexer.CurrLine()));
            } else {
              return Ok(currLeft);
            }
          } else {
            if currLeft.Some? {
              return Ok(currLeft);
            } else if inParen {
              return Err(SyntaxError(MissingRParen, lexer.CurrLine()));
            } else {
              return Ok(Some(Empty));
            }
          }
        }
        if opType == RPAREN {
          if inParen {
            return Ok(currLeft);
          } else {
            return Err(SyntaxError(UnexpectedRParen, lexer.CurrLine()));
          }
        }
        if OperatorId(opTok.value).None? || !IsInfix(opType) {
          if currLeft.None? {
            return Ok(None);
          } else {
            return Err(SyntaxError(ExpectedInfixOperator, lexer.CurrLine()));
          }
        } else if currLeft.None? {
          return Err(SyntaxError(MissingOperandBefore, lexer.CurrLine()));
        }
        if opType == ASSIGNMENT {
          var assignmentError := AssignmentError(currLeft.value, scope, lexer.CurrLine());
          if assignmentError.Some? {
            return Err(assignmentError.value);
          }
        }
        if prevOp.Some? && !Comparable(opType, prevOp.value.tokenType) {
          // `cmpPreced` unboxes a missing associativity
          return Err(NullPointer);
        }
        if prevOp.Some? && CmpPreced(opType, prevOp.value.tokenType) < 0 {
          return Ok(currLeft);
        }
        ghost var here := lexer.pos;
        assert spec == TakeOperator(s, scope, here, prevOp, inParen, currLeft.value) by {
          NotEofAdvances(s, here);
          assert spec == InfixOperator(s, scope, here, prevOp, inParen, currLeft.value);
        }
        var _ := lexer.Consume();
        var right := RecurParseInfixExpr(scope, Some(opTok), inParen);
        if right.Err? {
          return Err(right.error);
        }
        currLeft := Some(Binary(opTok, currLeft.value, right.value, None));
      }
    }

    /** `parseExpr(scope)`: an infix expression, then ';' when it is there, then the semantic analysis. */
    method ParseExpr(scope: Block) returns (r: Result<Option<Expr>>)
      requires lexer.Valid()
      modifies lexer
      ensures lexer.Valid()
      ensures Agrees(r, lexer.pos, ExprGrammar.ParseExpr(lexer.stream, scope, old(lexer.pos), compat))
    {
      var root := RecurParseInfixExpr(scope, None, false);
      if root.Err? {
        return root;
      }
      var _ := ParseTok(lexer, SEMICOLON);
      if root.value.None? {
        return Ok(None);
      }
      var analyzed := Analyze(root.value.value, compat, lexer.CurrLine());
      if analyzed.Err? {
        return Err(analyzed.error);
      }
      return Ok(Some(analyzed.value));
    }
  }
}
