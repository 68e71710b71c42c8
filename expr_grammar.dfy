/**
 * The expression grammar of `Parser.ExprParser` as functions of the token
 * stream, the scope and the lookahead position. Each function follows one
 * parse method: the same order of attempts, the same terminators, the same
 * errors on the same line. Operator precedence follows the Pratt scheme of
 * `recurParseInfixExpr`: a right operand is parsed with the operator just
 * consumed as the previous operator, and it stops at the first operator that
 * `cmpPreced` ranks below that one.
 */
module ExprGrammar {
  import opened Wrappers
  import opened Exceptions
  import opened Tokens
  import opened Types
  import opened Operators
  import opened Scopes
  import opened Nodes
  import opened BaseParsers

  /** A parse that returned: the node (null when nothing was parsed) and the lookahead position after it. */
  datatype Parsed = Parsed(node: Option<Expr>, pos: nat)

  /**
   * What every parsed tree satisfies before and after semantic analysis: an
   * identifier node is bound in the scope with the symbol's type and
   * mutability, a literal carries its literal's type, operator nodes hold
   * prefix or infix operators, the EMPTY sentinel never occurs inside a tree,
   * and the left operand of `=` is a mutable variable.
   */
  predicate WellFormed(e: Expr, scope: Block) {
    match e
    case Literal(tok, t) => LiteralType(tok.tokenType) == Some(t)
    case Var(tok, dataType, mutable) =>
      tok.tokenType == ID && GetSymbol(scope, tok.value).Some? &&
      GetSymbol(scope, tok.value).value.dataType == dataType && GetSymbol(scope, tok.value).value.mutable == mutable
    case Empty => false
    case Unary(tok, child, _) => IsPrefix(tok.tokenType) && WellFormed(child, scope)
    case Binary(tok, left, right, _) =>
      IsInfix(tok.tokenType) && OperatorId(tok.value).Some? &&
      WellFormed(left, scope) && (right.Some? ==> WellFormed(right.value, scope)) &&
      (tok.tokenType == ASSIGNMENT ==> left.Var? && left.mutable)
  }

  // ---------------------------------------------------------------- prefix operators

  /** The run of prefix operators at the lookahead, as `parsePrefixOp` consumes them one by one. */
  function PrefixOps(s: TokenStream, pos: nat): (ops: seq<Token>)
    requires pos <= |s.tokens|
    decreases |s.tokens| - pos
    ensures pos + |ops| <= |s.tokens|
    ensures !IsPrefix(Look(s, pos + |ops|).tokenType)
  {
    if IsPrefix(Look(s, pos).tokenType) then [Look(s, pos)] + PrefixOps(s, pos + 1) else []
  }

  /** The run is the prefix-operator tokens from the lookahead on, in order. */
  lemma {:induction false} PrefixOpsSpan(s: TokenStream, pos: nat)
    requires pos <= |s.tokens|
    decreases |s.tokens| - pos
    ensures var ops := PrefixOps(s, pos);
      ops == s.tokens[pos..pos + |ops|] && forall i | 0 <= i < |ops| :: IsPrefix(ops[i].tokenType)
  {
    if IsPrefix(Look(s, pos).tokenType) {
      PrefixOpsSpan(s, pos + 1);
      var rest := PrefixOps(s, pos + 1);
      assert s.tokens[pos..pos + 1 + |rest|] == [s.tokens[pos]] + s.tokens[pos + 1..pos + 1 + |rest|];
    }
  }

  /** The unary chain `parsePrefixExpr` wires: the first operator at the root, the operand at the bottom. */
  function Chain(ops: seq<Token>, operand: Expr): Expr {
    if ops == [] then operand else Unary(ops[0], Chain(ops[1..], operand), None)
  }

  /** The operand `depth` unary levels below the root, if the chain is that deep. */
  function Below(e: Expr, depth: nat): Option<Expr> {
    if depth == 0 then Some(e)
    else if e.Unary? then Below(e.child, depth - 1)
    else None
  }

  /** k prefix operators build a k-deep chain: level i holds the i-th operator, and the operand sits at depth k. */
  lemma {:induction false} ChainShape(ops: seq<Token>, operand: Expr, i: nat)
    requires i < |ops|
    ensures Below(Chain(ops, operand), i).Some?
    ensures Below(Chain(ops, operand), i).value == Unary(ops[i], Chain(ops[i + 1..], operand), None)
    ensures Below(Chain(ops, operand), |ops|) == Some(operand)
  {
    if i > 0 {
      ChainShape(ops[1..], operand, i - 1);
      assert ops[1..][i - 1..] == ops[i..];
      assert ops[1..][i..] == ops[i + 1..];
    } else {
      ChainBottom(ops, operand);
    }
  }

  /** A chain of prefix operators over a well-formed operand is well formed. */
  lemma {:induction false} ChainWellFormed(ops: seq<Token>, operand: Expr, scope: Block)
    requires forall i | 0 <= i < |ops| :: IsPrefix(ops[i].tokenType)
    requires WellFormed(operand, scope)
    ensures WellFormed(Chain(ops, operand), scope)
  {
    if ops != [] {
      ChainWellFormed(ops[1..], operand, scope);
    }
  }

  lemma {:induction false} ChainBottom(ops: seq<Token>, operand: Expr)
    ensures Below(Chain(ops, operand), |ops|) == Some(operand)
  {
    if ops != [] {
      ChainBottom(ops[1..], operand);
    }
  }

  // ---------------------------------------------------------------- the recursive descent

  /** `parsePrimaryExpr`: an identifier, else a literal, else a parenthesized expression. */
  function Primary(s: TokenStream, scope: Block, pos: nat): (r: Result<Parsed>)
    requires pos <= |s.tokens|
    decreases |s.tokens| - pos, 1
    ensures r.Ok? ==> pos <= r.value.pos <= |s.tokens| && r.value.node != Some(Empty)
    ensures r.Ok? && r.value.node.Some? ==> r.value.pos > pos
  {
    var tok := Look(s, pos);
    if tok.tokenType == ID then
      // `parseId`: an identifier must be bound
      match GetSymbol(scope, tok.value)
      case None => Err(SyntaxError(InvalidId, LineAt(s, pos)))
      case Some(v) => Ok(Parsed(Some(Var(tok, v.dataType, v.mutable)), Next(s, pos)))
    else if LiteralType(tok.tokenType).Some? then
      // `parseLiteral`: a token type the type table maps to a type
      Ok(Parsed(Some(Literal(tok, LiteralType(tok.tokenType).value)), Next(s, pos)))
    else
      Paren(s, scope, pos)
  }

  /** `parseParenExpr`: '(' expression ')', or nothing when there is no '('. */
  function Paren(s: TokenStream, scope: Block, pos: nat): (r: Result<Parsed>)
    requires pos <= |s.tokens|
    decreases |s.tokens| - pos, 0
    ensures r.Ok? ==> pos <= r.value.pos <= |s.tokens| && r.value.node != Some(Empty)
    ensures r.Ok? && r.value.node.Some? ==> r.value.pos > pos
    ensures Look(s, pos).tokenType != LPAREN ==> r == Ok(Parsed(None, pos))
  {
    if Look(s, pos).tokenType != LPAREN then Ok(Parsed(None, pos))
    else
      match Infix(s, scope, pos + 1, None, true)
      case Err(e) => Err(e)
      case Ok(inner) =>
        if Look(s, inner.pos).tokenType != RPAREN then Err(SyntaxError(MissingRParen, LineAt(s, inner.pos)))
        else Ok(Parsed(inner.node, Next(s, inner.pos)))
  }

  /**
   * `parsePostfixExpr`: a primary expression, wrapped by a postfix operator
   * when one follows. The table's postfix set is empty (`Operators.Fixities`),
   * so `parsePostfixOp` never consumes and the primary is the result.
   */
  function Postfix(s: TokenStream, scope: Block, pos: nat): (r: Result<Parsed>)
    requires pos <= |s.tokens|
    decreases |s.tokens| - pos, 2
    ensures r.Ok? ==> pos <= r.value.pos <= |s.tokens| && r.value.node != Some(Empty)
    ensures r.Ok? && r.value.node.Some? ==> r.value.pos > pos
  {
    Primary(s, scope, pos)
  }

  /** `parsePrefixExpr`: prefix operators, then a postfix expression, which must be there when an operator was. */
  function Prefix(s: TokenStream, scope: Block, pos: nat): (r: Result<Parsed>)
    requires pos <= |s.tokens|
    decreases |s.tokens| - pos, 3
    ensures r.Ok? ==> pos <= r.value.pos <= |s.tokens| && r.value.node != Some(Empty)
    ensures r.Ok? && r.value.node.Some? ==> r.value.pos > pos
  {
    var ops := PrefixOps(s, pos);
    match Postfix(s, scope, pos + |ops|)
    case Err(e) => Err(e)
    case Ok(operand) =>
      if ops == [] then Ok(operand)
      else if operand.node.None? then Err(SyntaxError(ExpectedExprAfterPrefix, LineAt(s, operand.pos)))
      else Ok(Parsed(Some(Chain(ops, operand.node.value)), operand.pos))
  }

  /** `recurParseInfixExpr`: a left operand from `parsePrefixExpr`, then the operator loop. */
  function Infix(s: TokenStream, scope: Block, pos: nat, prevOp: Option<Token>, inParen: bool): (r: Result<Parsed>)
    requires pos <= |s.tokens|
    decreases |s.tokens| - pos, 5
    ensures r.Ok? ==> pos <= r.value.pos <= |s.tokens|
    ensures r.Ok? && r.value.node.Some? && r.value.node.value != Empty ==> r.value.pos > pos
    ensures r.Ok? && r.value.node == Some(Empty) ==>
      prevOp.None? && !inParen && Look(s, r.value.pos).tokenType == SEMICOLON
  {
    match Prefix(s, scope, pos)
    case Err(e) => Err(e)
    case Ok(left) => InfixLoop(s, scope, left.pos, prevOp, inParen, left.node)
  }

  /** Why `=` cannot follow the left operand: not a variable token, not bound, or a constant; none when it can. */
  function AssignmentError(left: Expr, scope: Block, line: int): (err: Option<Error>)
    ensures err.None? ==>
      (left.Tok().Some? && left.tok.tokenType == ID &&
       GetSymbol(scope, left.tok.value).Some? && GetSymbol(scope, left.tok.value).value.mutable)
  {
    match left.Tok()
    case None => Some(NullPointer)
    case Some(t) =>
      if t.tokenType != ID then Some(SyntaxError(ExpectedVariableBeforeAssign, line))
      else match GetSymbol(scope, t.value)
        case None => Some(SyntaxError(InvalidVariable, line))
        case Some(v) => if !v.mutable then Some(SyntaxError(IsConstant, line)) else None
  }

  /** An operand that passes the assignment check is a mutable variable node. */
  lemma AssignableIsVariable(left: Expr, scope: Block, line: int)
    requires WellFormed(left, scope) && AssignmentError(left, scope, line).None?
    ensures left.Var? && left.mutable
  {
  }

  /**
   * One iteration of the `while (true)` loop of `recurParseInfixExpr` and the
   * iterations after it. `currLeft` is the operand parsed so far and `pos`
   * the lookahead; a terminator ends the loop, an infix operator that does
   * not rank below `prevOp` is consumed and its right operand parsed.
   */
  function InfixLoop(s: TokenStream, scope: Block, pos: nat, prevOp: Option<Token>, inParen: bool, currLeft: Option<Expr>): (r: Result<Parsed>)
    requires pos <= |s.tokens| && currLeft != Some(Empty)
    decreases |s.tokens| - pos, 4
    ensures r.Ok? ==> pos <= r.value.pos <= |s.tokens|
    ensures r.Ok? && r.value.node.Some? && r.value.node.value != Empty ==> r.value.pos > pos || r.value.node == currLeft
    ensures r.Ok? && r.value.node == Some(Empty) ==>
      prevOp.None? && !inParen && currLeft.None? && Look(s, r.value.pos).tokenType == SEMICOLON
  {
    var opTok := Look(s, pos);
    var opType := opTok.tokenType;
    var line := LineAt(s, pos);
    if opType == EOF then
      if prevOp.Some? then
        if currLeft.None? then Err(SyntaxError(ExpectedOperandAfter, line))
        else if inParen then Err(SyntaxError(MissingRParen, line))
        else Err(SyntaxError(MissingSemicolon, line))
      else
        if currLeft.None? then Ok(Parsed(None, pos))
        else if inParen then Err(SyntaxError(MissingRParen, line))
        else Err(SyntaxError(MissingSemicolon, line))
    else if opType == SEMICOLON then
      if prevOp.Some? then
        if currLeft.None? then Err(SyntaxError(ExpectedOperandAfter, line))
        else if inParen then Err(SyntaxError(MissingRParen, line))
        else Ok(Parsed(currLeft, pos))
      else
        if currLeft.Some? then Ok(Parsed(currLeft, pos))
        else if inParen then Err(SyntaxError(MissingRParen, line))
        else Ok(Parsed(Some(Empty), pos))
    else if opType == RPAREN then
      if inParen then Ok(Parsed(currLeft, pos)) else Err(SyntaxError(UnexpectedRParen, line))
    else if OperatorId(opTok.value).None? || !IsInfix(opType) then
      if currLeft.None? then Ok(Parsed(None, pos)) else Err(SyntaxError(ExpectedInfixOperator, line))
    else if currLeft.None? then Err(SyntaxError(MissingOperandBefore, line))
    else InfixOperator(s, scope, pos, prevOp, inParen, currLeft.value)
  }

  /**
   * The rest of a loop iteration once an infix operator follows the operand
   * `left`: the assignment check, then the comparison with `prevOp`, which
   * either hands `left` back or consumes the operator, parses its right
   * operand and goes on with the loop.
   */
  function InfixOperator(s: TokenStream, scope: Block, pos: nat, prevOp: Option<Token>, inParen: bool, left: Expr): (r: Result<Parsed>)
    requires pos < |s.tokens| && left != Empty
    decreases |s.tokens| - pos, 3
    ensures r.Ok? ==> pos <= r.value.pos <= |s.tokens| && r.value.node != Some(Empty)
    ensures r.Ok? && r.value.node.Some? ==> r.value.pos > pos || r.value.node == Some(left)
  {
    var opTok := Look(s, pos);
    var opType := opTok.tokenType;
    var assignmentError := if opType == ASSIGNMENT then AssignmentError(left, scope, LineAt(s, pos)) else None;
    if assignmentError.Some? then Err(assignmentError.value)
    else if prevOp.Some? && !Comparable(opType, prevOp.value.tokenType) then Err(NullPointer)
    else if prevOp.Some? && CmpPreced(opType, prevOp.value.tokenType) < 0 then Ok(Parsed(Some(left), pos))
    else TakeOperator(s, scope, pos, prevOp, inParen, left)
  }

  /** The operator is consumed, its right operand parsed, and the loop goes on with the new node as its left operand. */
  function TakeOperator(s: TokenStream, scope: Block, pos: nat, prevOp: Option<Token>, inParen: bool, left: Expr): (r: Result<Parsed>)
    requires pos < |s.tokens|
    decreases |s.tokens| - pos, 2
    ensures r.Ok? ==> pos < r.value.pos <= |s.tokens| && r.value.node != Some(Empty)
  {
    match Infix(s, scope, pos + 1, Some(Look(s, pos)), inParen)
    case Err(e) => Err(e)
    case Ok(right) =>
      InfixLoop(s, scope, right.pos, prevOp, inParen, Some(Binary(Look(s, pos), left, right.node, None)))
  }

  // ---------------------------------------------------------------- well-formedness

  /*
   * Every tree the descent builds is well formed. The lemmas follow the
   * functions call for call and go down by the same measure.
   */

  lemma {:induction false} PrimaryWellFormed(s: TokenStream, scope: Block, pos: nat)
    requires pos <= |s.tokens|
    decreases |s.tokens| - pos, 1
    ensures var r := Primary(s, scope, pos);
      r.Ok? && r.value.node.Some? ==> WellFormed(r.value.node.value, scope)
  {
    var t := Look(s, pos).tokenType;
    if t != ID && LiteralType(t).None? {
      ParenWellFormed(s, scope, pos);
    }
  }

  lemma {:induction false} ParenWellFormed(s: TokenStream, scope: Block, pos: nat)
    requires pos <= |s.tokens|
    decreases |s.tokens| - pos, 0
    ensures var r := Paren(s, scope, pos);
      r.Ok? && r.value.node.Some? ==> WellFormed(r.value.node.value, scope)
  {
    if Look(s, pos).tokenType == LPAREN {
      InfixWellFormed(s, scope, pos + 1, None, true);
    }
  }

  lemma {:induction false} PrefixWellFormed(s: TokenStream, scope: Block, pos: nat)
    requires pos <= |s.tokens|
    decreases |s.tokens| - pos, 3
    ensures var r := Prefix(s, scope, pos);
      r.Ok? && r.value.node.Some? ==> WellFormed(r.value.node.value, scope)
  {
    var ops := PrefixOps(s, pos);
    PrefixOpsSpan(s, pos);
    PrimaryWellFormed(s, scope, pos + |ops|);
    var operand := Postfix(s, scope, pos + |ops|);
    if operand.Ok? && operand.value.node.Some? {
      ChainWellFormed(ops, operand.value.node.value, scope);
    }
  }

  /**
   * What a prefix expression is, for any lookahead: with no prefix operator
   * it is the postfix expression; a run of k operators with no operand after
   * it is an error; otherwise it is a k-deep unary chain whose level i holds
   * the i-th token of the run and whose bottom is the operand.
   */
  lemma {:induction false} PrefixBuildsChain(s: TokenStream, scope: Block, pos: nat)
    requires pos <= |s.tokens|
    ensures var ops := PrefixOps(s, pos);
      var operand := Postfix(s, scope, pos + |ops|);
      var r := Prefix(s, scope, pos);
      (ops == [] || operand.Err? ==> r == operand) &&
      (ops != [] && operand.Ok? && operand.value.node.None? ==>
        r == Err(SyntaxError(ExpectedExprAfterPrefix, LineAt(s, operand.value.pos)))) &&
      (ops != [] && operand.Ok? && operand.value.node.Some? ==>
        r == Ok(Parsed(Some(Chain(ops, operand.value.node.value)), operand.value.pos)) &&
        Below(r.value.node.value, |ops|) == operand.value.node &&
        forall i | 0 <= i < |ops| ::
          Below(r.value.node.value, i).Some? && Below(r.value.node.value, i).value.Unary? &&
          Below(r.value.node.value, i).value.tok == s.tokens[pos + i] && IsPrefix(s.tokens[pos + i].tokenType))
  {
    var ops := PrefixOps(s, pos);
    PrefixOpsSpan(s, pos);
    var operand := Postfix(s, scope, pos + |ops|);
    if ops != [] && operand.Ok? && operand.value.node.Some? {
      var e := operand.value.node.value;
      ChainBottom(ops, e);
      forall i | 0 <= i < |ops|
        ensures Below(Chain(ops, e), i).Some? && Below(Chain(ops, e), i).value.Unary?
        ensures Below(Chain(ops, e), i).value.tok == s.tokens[pos + i] && IsPrefix(s.tokens[pos + i].tokenType)
      {
        ChainShape(ops, e, i);
        assert ops[i] == s.tokens[pos + i];
      }
    }
  }

  lemma {:induction false} InfixWellFormed(s: TokenStream, scope: Block, pos: nat, prevOp: Option<Token>, inParen: bool)
    requires pos <= |s.tokens|
    decreases |s.tokens| - pos, 5
    ensures var r := Infix(s, scope, pos, prevOp, inParen);
      r.Ok? && r.value.node.Some? && r.value.node.value != Empty ==> WellFormed(r.value.node.value, scope)
  {
    PrefixWellFormed(s, scope, pos);
    var left := Prefix(s, scope, pos);
    if left.Ok? {
      InfixLoopWellFormed(s, scope, left.value.pos, prevOp, inParen, left.value.node);
    }
  }

  lemma {:induction false} InfixLoopWellFormed(s: TokenStream, scope: Block, pos: nat, prevOp: Option<Token>, inParen: bool, currLeft: Option<Expr>)
    requires pos <= |s.tokens| && currLeft != Some(Empty)
    requires currLeft.Some? ==> WellFormed(currLeft.value, scope)
    decreases |s.tokens| - pos, 4
    ensures var r := InfixLoop(s, scope, pos, prevOp, inParen, currLeft);
      r.Ok? && r.value.node.Some? && r.value.node.value != Empty ==> WellFormed(r.value.node.value, scope)
  {
    var opTok := Look(s, pos);
    if opTok.tokenType !in {EOF, SEMICOLON, RPAREN} && OperatorId(opTok.value).Some? && IsInfix(opTok.tokenType) && currLeft.Some? {
      InfixOperatorWellFormed(s, scope, pos, prevOp, inParen, currLeft.value);
    }
  }

  lemma {:induction false} InfixOperatorWellFormed(s: TokenStream, scope: Block, pos: nat, prevOp: Option<Token>, inParen: bool, left: Expr)
    requires pos < |s.tokens| && left != Empty && WellFormed(left, scope)
    requires IsInfix(Look(s, pos).tokenType) && OperatorId(Look(s, pos).value).Some?
    decreases |s.tokens| - pos, 3
    ensures var r := InfixOperator(s, scope, pos, prevOp, inParen, left);
      r.Ok? && r.value.node.Some? ==> WellFormed(r.value.node.value, scope)
  {
    var opType := Look(s, pos).tokenType;
    var r := InfixOperator(s, scope, pos, prevOp, inParen, left);
    if opType == ASSIGNMENT && AssignmentError(left, scope, LineAt(s, pos)).None? {
      AssignableIsVariable(left, scope, LineAt(s, pos));
    }
    if opType != ASSIGNMENT || AssignmentError(left, scope, LineAt(s, pos)).None? {
      TakeOperatorWellFormed(s, scope, pos, prevOp, inParen, left);
    }
    assert r.Ok? && r.value.node.Some? ==> r.value.node == Some(left) || r == TakeOperator(s, scope, pos, prevOp, inParen, left);
  }

  lemma {:induction false} TakeOperatorWellFormed(s: TokenStream, scope: Block, pos: nat, prevOp: Option<Token>, inParen: bool, left: Expr)
    requires pos < |s.tokens| && WellFormed(left, scope)
    requires IsInfix(Look(s, pos).tokenType) && OperatorId(Look(s, pos).value).Some?
    requires Look(s, pos).tokenType == ASSIGNMENT ==> left.Var? && left.mutable
    decreases |s.tokens| - pos, 2
    ensures var r := TakeOperator(s, scope, pos, prevOp, inParen, left);
      r.Ok? && r.value.node.Some? ==> WellFormed(r.value.node.value, scope)
  {
    var opTok := Look(s, pos);
    InfixWellFormed(s, scope, pos + 1, Some(opTok), inParen);
    var right := Infix(s, scope, pos + 1, Some(opTok), inParen);
    if right.Ok? {
      InfixLoopWellFormed(s, scope, right.value.pos, prevOp, inParen, Some(Binary(opTok, left, right.value.node, None)));
    }
  }

  // ---------------------------------------------------------------- precedence

  /*
   * What the comparison with `prevOp` guarantees: an operator node the loop
   * builds inside the right operand of `prevOp` ranks above `prevOp`, so a
   * looser operator can end up there only inside parentheses.
   */

  /** The node is an operator node whose operator ranks above `prevOp` (tighter, or as tight and left to right). */
  predicate RanksAbove(node: Option<Expr>, prevOp: Token) {
    && node.Some? && node.value.Binary?
    && Comparable(node.value.tok.tokenType, prevOp.tokenType)
    && CmpPreced(node.value.tok.tokenType, prevOp.tokenType) == 1
  }

  lemma {:induction false} InfixLoopRanksAbove(s: TokenStream, scope: Block, pos: nat, prevOp: Token, inParen: bool, currLeft: Option<Expr>)
    requires pos <= |s.tokens| && currLeft != Some(Empty)
    decreases |s.tokens| - pos, 4
    ensures var r := InfixLoop(s, scope, pos, Some(prevOp), inParen, currLeft);
      r.Ok? ==> r.value.node == currLeft || RanksAbove(r.value.node, prevOp)
  {
    var opTok := Look(s, pos);
    if opTok.tokenType !in {EOF, SEMICOLON, RPAREN} && OperatorId(opTok.value).Some? && IsInfix(opTok.tokenType) && currLeft.Some? {
      InfixOperatorRanksAbove(s, scope, pos, prevOp, inParen, currLeft.value);
    }
  }

  lemma {:induction false} InfixOperatorRanksAbove(s: TokenStream, scope: Block, pos: nat, prevOp: Token, inParen: bool, left: Expr)
    requires pos < |s.tokens| && left != Empty
    decreases |s.tokens| - pos, 3
    ensures var r := InfixOperator(s, scope, pos, Some(prevOp), inParen, left);
      r.Ok? ==> r.value.node == Some(left) || RanksAbove(r.value.node, prevOp)
  {
    var opTok := Look(s, pos);
    var opType := opTok.tokenType;
    var assignmentError := if opType == ASSIGNMENT then AssignmentError(left, scope, LineAt(s, pos)) else None;
    if assignmentError.None? && Comparable(opType, prevOp.tokenType) && CmpPreced(opType, prevOp.tokenType) == 1 {
      var right := Infix(s, scope, pos + 1, Some(opTok), inParen);
      if right.Ok? {
        var node := Binary(opTok, left, right.value.node, None);
        assert RanksAbove(Some(node), prevOp);
        InfixLoopRanksAbove(s, scope, right.value.pos, prevOp, inParen, Some(node));
      }
    }
  }

  /**
   * The right operand of an operator `prevOp` is the operand parsed first (a
   * literal, a variable, a prefix chain or a parenthesised group) or an
   * operator node whose operator ranks above `prevOp`: its precedence is at
   * least as high, and equal only when it is left to right.
   */
  lemma RightOperandRanksAbove(s: TokenStream, scope: Block, pos: nat, prevOp: Token, inParen: bool)
    requires pos <= |s.tokens|
    ensures var r := Infix(s, scope, pos, Some(prevOp), inParen);
      r.Ok? ==> Prefix(s, scope, pos).Ok?
    ensures var r := Infix(s, scope, pos, Some(prevOp), inParen);
      r.Ok? && r.value.node != Prefix(s, scope, pos).value.node ==> RanksAbove(r.value.node, prevOp)
    ensures var r := Infix(s, scope, pos, Some(prevOp), inParen);
      r.Ok? && RanksAbove(r.value.node, prevOp) ==>
        var op := r.value.node.value.tok.tokenType;
        Preced(op) >= Preced(prevOp.tokenType) && (Preced(op) == Preced(prevOp.tokenType) ==> AssociativityMap[op])
  {
    var left := Prefix(s, scope, pos);
    if left.Ok? {
      InfixLoopRanksAbove(s, scope, left.value.pos, prevOp, inParen, left.value.node);
    }
  }

  // ---------------------------------------------------------------- semantic analysis

  /** The tree with every operator node's type cleared, as the parse builds it. */
  function Erase(e: Expr): Expr {
    match e
    case Unary(tok, child, _) => Unary(tok, Erase(child), None)
    case Binary(tok, left, right, _) =>
      Binary(tok, Erase(left), if right.Some? then Some(Erase(right.value)) else None, None)
    case _ => e
  }

  /**
   * A fully typed tree: every operator node has both operands and carries the
   * compatibility table's result type for its operator and its operands' types.
   */
  predicate Typed(e: Expr, compat: map<CompatKey, TypeInfo>) {
    match e
    case Unary(tok, child, dataType) =>
      Typed(child, compat) &&
      UnaryCompat(tok.tokenType, child.DataType()) in compat &&
      dataType == Some(compat[UnaryCompat(tok.tokenType, child.DataType())])
    case Binary(tok, left, right, dataType) =>
      right.Some? && Typed(left, compat) && Typed(right.value, compat) &&
      BinaryCompat(tok.tokenType, left.DataType(), right.value.DataType()) in compat &&
      dataType == Some(compat[BinaryCompat(tok.tokenType, left.DataType(), right.value.DataType())])
    case _ => true
  }

  /**
   * `analyzeSemantics` of the expression parser: post-order, each operator
   * node gets the table's type for its operator and its operands' types.
   * A missing entry is "not compatible"; building that message reads the
   * operand types' ids, which fails when one of them is null. A binary node
   * without a right operand fails when its type is read.
   */
  function Analyze(e: Expr, compat: map<CompatKey, TypeInfo>, line: int): (r: Result<Expr>)
    ensures r.Ok? ==> Typed(r.value, compat) && Erase(r.value) == Erase(e)
  {
    match e
    case Unary(tok, child, _) =>
      (match Analyze(child, compat, line)
       case Err(err) => Err(err)
       case Ok(c) =>
         var key := UnaryCompat(tok.tokenType, c.DataType());
         if key in compat then Ok(Unary(tok, c, Some(compat[key])))
         else if c.DataType().None? then Err(NullPointer)
         else Err(SyntaxError(NotCompatible, line)))
    case Binary(tok, left, right, _) =>
      (match Analyze(left, compat, line)
       case Err(err) => Err(err)
       case Ok(l) =>
         if right.None? then Err(NullPointer)
         else match Analyze(right.value, compat, line)
           case Err(err) => Err(err)
           case Ok(rt) =>
             var key := BinaryCompat(tok.tokenType, l.DataType(), rt.DataType());
             if key in compat then Ok(Binary(tok, l, Some(rt), Some(compat[key])))
             else if l.DataType().None? || rt.DataType().None? then Err(NullPointer)
             else Err(SyntaxError(NotCompatible, line)))
    case _ => Ok(e)
  }

  /** Analysis is the only typing: any typed tree with the same shape is what analysis returns. */
  lemma {:induction false} AnalyzeComplete(e: Expr, a: Expr, compat: map<CompatKey, TypeInfo>, line: int)
    requires Typed(a, compat) && Erase(a) == Erase(e)
    ensures Analyze(e, compat, line) == Ok(a)
  {
    match e
    case Unary(tok, child, _) =>
      AnalyzeComplete(child, a.child, compat, line);
    case Binary(tok, left, right, _) =>
      AnalyzeComplete(left, a.left, compat, line);
      AnalyzeComplete(right.value, a.right.value, compat, line);
    case _ =>
  }

  /** Analysis leaves terminals alone and keeps a well-formed tree well formed. */
  lemma {:induction false} AnalyzeKeepsWellFormed(e: Expr, a: Expr, scope: Block)
    requires WellFormed(e, scope) && Erase(a) == Erase(e)
    ensures WellFormed(a, scope)
  {
    match e
    case Unary(tok, child, _) =>
      AnalyzeKeepsWellFormed(child, a.child, scope);
    case Binary(tok, left, right, _) =>
      AnalyzeKeepsWellFormed(left, a.left, scope);
      if right.Some? {
        AnalyzeKeepsWellFormed(right.value, a.right.value, scope);
      }
    case _ =>
  }

  /**
   * `parseExpr(scope)`: an infix expression outside parentheses, then ';' when
   * it is there, then the semantic analysis, whose errors carry the line
   * after the ';'.
   */
  function ParseExpr(s: TokenStream, scope: Block, pos: nat, compat: map<CompatKey, TypeInfo>): (r: Result<Parsed>)
    requires pos <= |s.tokens|
    ensures r.Ok? ==> pos <= r.value.pos <= |s.tokens|
    ensures r.Ok? && r.value.node.Some? ==> r.value.pos > pos
    ensures r.Ok? && r.value.node.Some? && r.value.node.value != Empty ==>
      WellFormed(r.value.node.value, scope) && Typed(r.value.node.value, compat)
  {
    InfixWellFormed(s, scope, pos, None, false);
    match Infix(s, scope, pos, None, false)
    case Err(e) => Err(e)
    case Ok(root) =>
      var p := if Look(s, root.pos).tokenType == SEMICOLON then Next(s, root.pos) else root.pos;
      if root.node.None? then Ok(Parsed(None, p))
      else
        match Analyze(root.node.value, compat, LineAt(s, p))
        case Err(e) => Err(e)
        case Ok(a) =>
          if root.node.value == Empty then Ok(Parsed(Some(a), p))
          else
            AnalyzeKeepsWellFormed(root.node.value, a, scope);
            Ok(Parsed(Some(a), p))
  }
}
