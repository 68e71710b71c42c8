/**
 * Parses of concrete token streams, the ones the expression parser's tests
 * and its comments describe: precedence, parenthesised grouping, the nesting
 * of equal-precedence operators, prefix chains, the terminators and the
 * assignment checks.
 */
module ExprExamples {
  import opened Wrappers
  import opened Exceptions
  import opened Tokens
  import opened Types
  import opened Operators
  import opened Scopes
  import opened Nodes
  import opened BaseParsers
  import opened ExprGrammar

  const One := Token("1", INT_LITERAL, 1)
  const Two := Token("2", INT_LITERAL, 1)
  const Three := Token("3", INT_LITERAL, 1)
  const Plus := Token("+", ADD, 1)
  const Minus := Token("-", SUB, 1)
  const Times := Token("*", MULT, 1)
  const Percent := Token("%", MOD, 1)
  const Assign := Token("=", ASSIGNMENT, 1)
  const Semi := Token(";", SEMICOLON, 1)
  const Open := Token("(", LPAREN, 1)
  const Close := Token(")", RPAREN, 1)
  const Twelve := Token("12.0", FLOAT_LITERAL, 1)
  const ThreeTwoSix := Token("326", INT_LITERAL, 1)
  const FortyThree := Token("4.3e1", FLOAT_LITERAL, 1)
  const NinetySeven := Token("97.0", FLOAT_LITERAL, 1)
  const Slash := Token("/", DIV, 1)
  const A := Token("a", ID, 1)
  const B := Token("b", ID, 1)
  const C := Token("c", ID, 1)

  /** The lexemes of the example operators are operators of the table. */
  lemma ExampleLexemes()
    ensures OperatorId("+") == Some(ADD) && OperatorId("-") == Some(SUB)
    ensures OperatorId("*") == Some(MULT) && OperatorId("%") == Some(MOD) && OperatorId("=") == Some(ASSIGNMENT)
    ensures OperatorId("/") == Some(DIV)
  {
  }

  /** A literal operand: one token, typed by the type table. */
  lemma LiteralOperand(s: TokenStream, scope: Block, p: nat)
    requires p < |s.tokens| && LiteralType(s.tokens[p].tokenType).Some?
    ensures Prefix(s, scope, p) == Ok(Parsed(Some(Literal(s.tokens[p], LiteralType(s.tokens[p].tokenType).value)), p + 1))
  {
    var expected := Ok(Parsed(Some(Literal(s.tokens[p], LiteralType(s.tokens[p].tokenType).value)), p + 1));
    assert s.tokens[p].tokenType != ID;
    assert Primary(s, scope, p) == expected;
    assert PrefixOps(s, p) == [];
    assert Postfix(s, scope, p + 0) == expected;
  }

  /** An identifier operand bound in the scope: one token, carrying the symbol's type and mutability. */
  lemma VarOperand(s: TokenStream, scope: Block, p: nat, v: VarInfo)
    requires p < |s.tokens| && s.tokens[p].tokenType == ID && GetSymbol(scope, s.tokens[p].value) == Some(v)
    ensures Prefix(s, scope, p) == Ok(Parsed(Some(Var(s.tokens[p], v.dataType, v.mutable)), p + 1))
  {
    var expected := Ok(Parsed(Some(Var(s.tokens[p], v.dataType, v.mutable)), p + 1));
    assert Primary(s, scope, p) == expected;
    assert PrefixOps(s, p) == [];
    assert Postfix(s, scope, p + 0) == expected;
  }

  // ---------------------------------------------------------------- steps
  //
  // One iteration of the descent each: the parses of whole streams below are
  // put together from these steps.

  /** The loop ends at ';' after an operand, inside an operator's right operand. */
  lemma EndsAtSemicolon(s: TokenStream, scope: Block, pos: nat, prevOp: Option<Token>, left: Expr)
    requires pos <= |s.tokens| && left != Empty
    requires Look(s, pos).tokenType == SEMICOLON
    ensures InfixLoop(s, scope, pos, prevOp, false, Some(left)) == Ok(Parsed(Some(left), pos))
  {
  }

  /** After an operand, an infix operator of the table hands the iteration to the operator step. */
  lemma MeetsOperator(s: TokenStream, scope: Block, pos: nat, prevOp: Option<Token>, inParen: bool, left: Expr)
    requires pos < |s.tokens| && left != Empty
    requires IsInfix(Look(s, pos).tokenType) && OperatorId(Look(s, pos).value).Some?
    ensures InfixLoop(s, scope, pos, prevOp, inParen, Some(left)) == InfixOperator(s, scope, pos, prevOp, inParen, left)
  {
    var op := Look(s, pos).tokenType;
    assert op != EOF && op != SEMICOLON && op != RPAREN;
  }

  /** The operator step hands the operand back when the operator ranks below the previous one. */
  lemma YieldsToLooser(s: TokenStream, scope: Block, pos: nat, prevOp: Token, inParen: bool, left: Expr)
    requires pos < |s.tokens| && left != Empty
    requires Look(s, pos).tokenType == ASSIGNMENT ==> AssignmentError(left, scope, LineAt(s, pos)).None?
    requires Comparable(Look(s, pos).tokenType, prevOp.tokenType) && CmpPreced(Look(s, pos).tokenType, prevOp.tokenType) < 0
    ensures InfixOperator(s, scope, pos, Some(prevOp), inParen, left) == Ok(Parsed(Some(left), pos))
  {
  }

  /**
   * The operator step consumes an operator that passes the assignment check
   * and does not rank below the previous one, parses its right operand and
   * goes on with the loop.
   */
  lemma TakesOperator(s: TokenStream, scope: Block, pos: nat, prevOp: Option<Token>, inParen: bool, left: Expr, right: Parsed)
    requires pos < |s.tokens| && left != Empty
    requires Look(s, pos).tokenType == ASSIGNMENT ==> AssignmentError(left, scope, LineAt(s, pos)).None?
    requires prevOp.Some? ==> Comparable(Look(s, pos).tokenType, prevOp.value.tokenType) && CmpPreced(Look(s, pos).tokenType, prevOp.value.tokenType) > 0
    requires Infix(s, scope, pos + 1, Some(Look(s, pos)), inParen) == Ok(right)
    ensures InfixOperator(s, scope, pos, prevOp, inParen, left) ==
      InfixLoop(s, scope, right.pos, prevOp, inParen, Some(Binary(Look(s, pos), left, right.node, None)))
  {
  }

  /** '=' after an operand that is not a bound, mutable variable is rejected, whatever encloses it. */
  lemma RejectsAssignment(s: TokenStream, scope: Block, pos: nat, prevOp: Option<Token>, inParen: bool, left: Expr)
    requires pos < |s.tokens| && left != Empty
    requires Look(s, pos).tokenType == ASSIGNMENT && AssignmentError(left, scope, LineAt(s, pos)).Some?
    ensures InfixOperator(s, scope, pos, prevOp, inParen, left) == Err(AssignmentError(left, scope, LineAt(s, pos)).value)
  {
  }

  /** A token that starts no operand: the prefix parser consumes nothing and yields nothing. */
  lemma NoOperand(s: TokenStream, scope: Block, pos: nat)
    requires pos <= |s.tokens|
    requires var t := Look(s, pos).tokenType; t != ID && LiteralType(t).None? && t != LPAREN && !IsPrefix(t)
    ensures Prefix(s, scope, pos) == Ok(Parsed(None, pos))
  {
    assert PrefixOps(s, pos) == [];
    assert Primary(s, scope, pos) == Ok(Parsed(None, pos));
    assert Postfix(s, scope, pos + 0) == Ok(Parsed(None, pos));
  }

  /** Inside parentheses, ')' ends the loop and hands back what was parsed, whatever encloses it. */
  lemma ClosesParen(s: TokenStream, scope: Block, pos: nat, prevOp: Option<Token>, currLeft: Option<Expr>)
    requires pos <= |s.tokens| && currLeft != Some(Empty) && Look(s, pos).tokenType == RPAREN
    ensures InfixLoop(s, scope, pos, prevOp, true, currLeft) == Ok(Parsed(currLeft, pos))
  {
  }

  /** At '(' the operand is whatever the parenthesis parser makes of it. */
  lemma ParenOperand(s: TokenStream, scope: Block, pos: nat)
    requires pos < |s.tokens| && Look(s, pos).tokenType == LPAREN
    ensures Prefix(s, scope, pos) == Paren(s, scope, pos)
  {
    assert LiteralType(LPAREN).None? && !IsPrefix(LPAREN);
    assert PrefixOps(s, pos) == [];
    assert Postfix(s, scope, pos + 0) == Paren(s, scope, pos);
  }

  /** '(' expression ')' is an operand: the inner expression, with the ')' consumed. */
  lemma ParenGroup(s: TokenStream, scope: Block, pos: nat, inner: Parsed)
    requires pos < |s.tokens| && Look(s, pos).tokenType == LPAREN
    requires Infix(s, scope, pos + 1, None, true) == Ok(inner) && Look(s, inner.pos).tokenType == RPAREN
    ensures Prefix(s, scope, pos) == Ok(Parsed(inner.node, inner.pos + 1))
  {
    ParenOperand(s, scope, pos);
  }

  /** An infix expression is its first operand followed by the loop. */
  lemma StartsWithOperand(s: TokenStream, scope: Block, pos: nat, prevOp: Option<Token>, inParen: bool, left: Parsed)
    requires pos <= |s.tokens| && Prefix(s, scope, pos) == Ok(left)
    ensures left.pos <= |s.tokens|
    ensures Infix(s, scope, pos, prevOp, inParen) == InfixLoop(s, scope, left.pos, prevOp, inParen, left.node)
  {
  }

  // ---------------------------------------------------------------- the expression tests

  /** `1*2+3;`: the tighter `*` is grouped first, `((1*2)+3)`. */
  lemma TighterOperatorGroupsFirst(s: TokenStream, scope: Block)
    requires |s.tokens| == 6 && s.tokens[0] == One && s.tokens[1] == Times && s.tokens[2] == Two
    requires s.tokens[3] == Plus && s.tokens[4] == Three && s.tokens[5] == Semi
    ensures Infix(s, scope, 0, None, false) ==
      Ok(Parsed(Some(Binary(Plus, Binary(Times, Literal(One, IntType), Some(Literal(Two, IntType)), None), Some(Literal(Three, IntType)), None)), 5))
  {
    var l1, l2, l3 := Literal(One, IntType), Literal(Two, IntType), Literal(Three, IntType);
    ExampleLexemes();
    LiteralOperand(s, scope, 0);
    LiteralOperand(s, scope, 2);
    LiteralOperand(s, scope, 4);
    // 2 is the right operand of `*`: the looser `+` ends it
    MeetsOperator(s, scope, 3, Some(Times), false, l2);
    YieldsToLooser(s, scope, 3, Times, false, l2);
    StartsWithOperand(s, scope, 2, Some(Times), false, Parsed(Some(l2), 3));
    // 3 is the right operand of `+`
    EndsAtSemicolon(s, scope, 5, Some(Plus), l3);
    StartsWithOperand(s, scope, 4, Some(Plus), false, Parsed(Some(l3), 5));
    var product := Binary(Times, l1, Some(l2), None);
    var sum := Binary(Plus, product, Some(l3), None);
    EndsAtSemicolon(s, scope, 5, None, sum);
    MeetsOperator(s, scope, 3, None, false, product);
    TakesOperator(s, scope, 3, None, false, product, Parsed(Some(l3), 5));
    MeetsOperator(s, scope, 1, None, false, l1);
    TakesOperator(s, scope, 1, None, false, l1, Parsed(Some(l2), 3));
    StartsWithOperand(s, scope, 0, None, false, Parsed(Some(l1), 1));
  }

  /** `1-2-3;`: an operator of equal precedence that is left-to-right is taken into the right operand, `(1-(2-3))`. */
  lemma EqualPrecedenceNestsRight(s: TokenStream, scope: Block)
    requires |s.tokens| == 6 && s.tokens[0] == One && s.tokens[1] == Minus && s.tokens[2] == Two
    requires s.tokens[3] == Minus && s.tokens[4] == Three && s.tokens[5] == Semi
    ensures Infix(s, scope, 0, None, false) ==
      Ok(Parsed(Some(Binary(Minus, Literal(One, IntType), Some(Binary(Minus, Literal(Two, IntType), Some(Literal(Three, IntType)), None)), None)), 5))
  {
    var l1, l2, l3 := Literal(One, IntType), Literal(Two, IntType), Literal(Three, IntType);
    ExampleLexemes();
    LiteralOperand(s, scope, 0);
    LiteralOperand(s, scope, 2);
    LiteralOperand(s, scope, 4);
    // 3 is the right operand of the second `-`
    EndsAtSemicolon(s, scope, 5, Some(Minus), l3);
    StartsWithOperand(s, scope, 4, Some(Minus), false, Parsed(Some(l3), 5));
    // the second `-` does not rank below the first, so it is taken into the first one's right operand
    var difference := Binary(Minus, l2, Some(l3), None);
    EndsAtSemicolon(s, scope, 5, Some(Minus), difference);
    MeetsOperator(s, scope, 3, Some(Minus), false, l2);
    TakesOperator(s, scope, 3, Some(Minus), false, l2, Parsed(Some(l3), 5));
    StartsWithOperand(s, scope, 2, Some(Minus), false, Parsed(Some(l2), 3));
    var outer := Binary(Minus, l1, Some(difference), None);
    EndsAtSemicolon(s, scope, 5, None, outer);
    MeetsOperator(s, scope, 1, None, false, l1);
    TakesOperator(s, scope, 1, None, false, l1, Parsed(Some(difference), 5));
    StartsWithOperand(s, scope, 0, None, false, Parsed(Some(l1), 1));
  }

  /** `-1` at the start of `-1 + 2 * 3;`: one prefix operator over the literal. */
  lemma NegatedOne(s: TokenStream, scope: Block)
    requires |s.tokens| == 7 && s.tokens[0] == Minus && s.tokens[1] == One && s.tokens[2] == Plus
    ensures Prefix(s, scope, 0) == Ok(Parsed(Some(Unary(Minus, Literal(One, IntType), None)), 2))
  {
    var lit := Literal(One, IntType);
    assert PrefixOps(s, 1) == [];
    assert PrefixOps(s, 0) == [Minus];
    assert Primary(s, scope, 1) == Ok(Parsed(Some(lit), 2));
    assert Chain([Minus], lit) == Unary(Minus, lit, None);
  }

  /** `-1 + 2 * 3;`: the prefix '-' binds to its operand and the tighter '*' is the right operand of '+', `((-(1))+((2)*(3)))`. */
  lemma PrefixThenPrecedence(s: TokenStream, scope: Block)
    requires |s.tokens| == 7 && s.tokens[0] == Minus && s.tokens[1] == One && s.tokens[2] == Plus
    requires s.tokens[3] == Two && s.tokens[4] == Times && s.tokens[5] == Three && s.tokens[6] == Semi
    ensures Infix(s, scope, 0, None, false) ==
      Ok(Parsed(Some(Binary(Plus, Unary(Minus, Literal(One, IntType), None),
        Some(Binary(Times, Literal(Two, IntType), Some(Literal(Three, IntType)), None)), None)), 6))
  {
    var l2, l3 := Literal(Two, IntType), Literal(Three, IntType);
    var negated := Unary(Minus, Literal(One, IntType), None);
    ExampleLexemes();
    NegatedOne(s, scope);
    LiteralOperand(s, scope, 3);
    LiteralOperand(s, scope, 5);
    // 3 is the right operand of `*`
    EndsAtSemicolon(s, scope, 6, Some(Times), l3);
    StartsWithOperand(s, scope, 5, Some(Times), false, Parsed(Some(l3), 6));
    // `*` ranks above `+`, so it is taken into the right operand of `+`
    var product := Binary(Times, l2, Some(l3), None);
    EndsAtSemicolon(s, scope, 6, Some(Plus), product);
    MeetsOperator(s, scope, 4, Some(Plus), false, l2);
    TakesOperator(s, scope, 4, Some(Plus), false, l2, Parsed(Some(l3), 6));
    StartsWithOperand(s, scope, 3, Some(Plus), false, Parsed(Some(l2), 4));
    var sum := Binary(Plus, negated, Some(product), None);
    EndsAtSemicolon(s, scope, 6, None, sum);
    MeetsOperator(s, scope, 2, None, false, negated);
    TakesOperator(s, scope, 2, None, false, negated, Parsed(Some(product), 6));
    StartsWithOperand(s, scope, 0, None, false, Parsed(Some(negated), 2));
  }

  /** `--12.` at the start of `--12.* 326+ 4.3e1 / 97.0;`: two prefix operators over the literal. */
  lemma DoublyNegatedTwelve(s: TokenStream, scope: Block)
    requires |s.tokens| == 10 && s.tokens[0] == Minus && s.tokens[1] == Minus && s.tokens[2] == Twelve && s.tokens[3] == Times
    ensures Prefix(s, scope, 0) == Ok(Parsed(Some(Unary(Minus, Unary(Minus, Literal(Twelve, FloatType), None), None)), 3))
  {
    var lit := Literal(Twelve, FloatType);
    assert PrefixOps(s, 2) == [];
    assert PrefixOps(s, 1) == [Minus];
    assert PrefixOps(s, 0) == [Minus, Minus];
    assert Primary(s, scope, 2) == Ok(Parsed(Some(lit), 3));
    assert Chain([Minus], lit) == Unary(Minus, lit, None);
  }

  /** `326+` inside `--12.* 326+ 4.3e1 / 97.0;`: the looser '+' ends the right operand of '*'. */
  lemma ProductEndsAtPlus(s: TokenStream, scope: Block)
    requires |s.tokens| == 10 && s.tokens[4] == ThreeTwoSix && s.tokens[5] == Plus
    ensures Infix(s, scope, 4, Some(Times), false) == Ok(Parsed(Some(Literal(ThreeTwoSix, IntType)), 5))
  {
    var l := Literal(ThreeTwoSix, IntType);
    ExampleLexemes();
    LiteralOperand(s, scope, 4);
    MeetsOperator(s, scope, 5, Some(Times), false, l);
    YieldsToLooser(s, scope, 5, Times, false, l);
    StartsWithOperand(s, scope, 4, Some(Times), false, Parsed(Some(l), 5));
  }

  /** `4.3e1 / 97.0;` as the right operand of '+': the tighter '/' is taken into it. */
  lemma QuotientAfterPlus(s: TokenStream, scope: Block)
    requires |s.tokens| == 10 && s.tokens[6] == FortyThree && s.tokens[7] == Slash
    requires s.tokens[8] == NinetySeven && s.tokens[9] == Semi
    ensures Infix(s, scope, 6, Some(Plus), false) ==
      Ok(Parsed(Some(Binary(Slash, Literal(FortyThree, FloatType), Some(Literal(NinetySeven, FloatType)), None)), 9))
  {
    var l43, l97 := Literal(FortyThree, FloatType), Literal(NinetySeven, FloatType);
    ExampleLexemes();
    LiteralOperand(s, scope, 6);
    LiteralOperand(s, scope, 8);
    EndsAtSemicolon(s, scope, 9, Some(Slash), l97);
    StartsWithOperand(s, scope, 8, Some(Slash), false, Parsed(Some(l97), 9));
    var quotient := Binary(Slash, l43, Some(l97), None);
    EndsAtSemicolon(s, scope, 9, Some(Plus), quotient);
    MeetsOperator(s, scope, 7, Some(Plus), false, l43);
    TakesOperator(s, scope, 7, Some(Plus), false, l43, Parsed(Some(l97), 9));
    StartsWithOperand(s, scope, 6, Some(Plus), false, Parsed(Some(l43), 7));
  }

  /**
   * `--12.* 326+ 4.3e1 / 97.0;` (the lexer's tokens for it): the prefix chain
   * is the left operand of '*', and '+' joins that product with the quotient,
   * `(((-(-(12.0)))*(326))+((4.3e1)/(97.0)))`.
   */
  lemma PrefixChainInSum(s: TokenStream, scope: Block)
    requires |s.tokens| == 10 && s.tokens[0] == Minus && s.tokens[1] == Minus && s.tokens[2] == Twelve
    requires s.tokens[3] == Times && s.tokens[4] == ThreeTwoSix && s.tokens[5] == Plus && s.tokens[6] == FortyThree
    requires s.tokens[7] == Slash && s.tokens[8] == NinetySeven && s.tokens[9] == Semi
    ensures Infix(s, scope, 0, None, false) ==
      Ok(Parsed(Some(Binary(Plus,
        Binary(Times, Unary(Minus, Unary(Minus, Literal(Twelve, FloatType), None), None), Some(Literal(ThreeTwoSix, IntType)), None),
        Some(Binary(Slash, Literal(FortyThree, FloatType), Some(Literal(NinetySeven, FloatType)), None)), None)), 9))
  {
    var chain := Unary(Minus, Unary(Minus, Literal(Twelve, FloatType), None), None);
    var product := Binary(Times, chain, Some(Literal(ThreeTwoSix, IntType)), None);
    var quotient := Binary(Slash, Literal(FortyThree, FloatType), Some(Literal(NinetySeven, FloatType)), None);
    var sum := Binary(Plus, product, Some(quotient), None);
    ExampleLexemes();
    DoublyNegatedTwelve(s, scope);
    ProductEndsAtPlus(s, scope);
    QuotientAfterPlus(s, scope);
    EndsAtSemicolon(s, scope, 9, None, sum);
    MeetsOperator(s, scope, 5, None, false, product);
    TakesOperator(s, scope, 5, None, false, product, Parsed(Some(quotient), 9));
    MeetsOperator(s, scope, 3, None, false, chain);
    TakesOperator(s, scope, 3, None, false, chain, Parsed(Some(Literal(ThreeTwoSix, IntType)), 5));
    StartsWithOperand(s, scope, 0, None, false, Parsed(Some(chain), 3));
  }

  // ---------------------------------------------------------------- terminators

  /** ';' with no operand and no enclosing operator is the empty statement. */
  lemma EmptyStatement(s: TokenStream, scope: Block, pos: nat)
    requires pos <= |s.tokens| && Look(s, pos).tokenType == SEMICOLON
    ensures Infix(s, scope, pos, None, false) == Ok(Parsed(Some(Empty), pos))
  {
    NoOperand(s, scope, pos);
  }

  /** The end of input before any operand gives no expression at all. */
  lemma NothingBeforeEof(s: TokenStream, scope: Block, pos: nat, inParen: bool)
    requires pos <= |s.tokens| && Look(s, pos).tokenType == EOF
    ensures Infix(s, scope, pos, None, inParen) == Ok(Parsed(None, pos))
  {
    NoOperand(s, scope, pos);
  }

  /** An operand followed by the end of input lacks its ';', or its ')' inside parentheses. */
  lemma OperandThenEof(s: TokenStream, scope: Block, pos: nat, prevOp: Option<Token>, inParen: bool, operand: Parsed)
    requires pos <= |s.tokens| && Prefix(s, scope, pos) == Ok(operand) && operand.node.Some?
    requires Look(s, operand.pos).tokenType == EOF
    ensures Infix(s, scope, pos, prevOp, inParen) ==
      Err(SyntaxError(if inParen then MissingRParen else MissingSemicolon, LineAt(s, operand.pos)))
  {
  }

  /** ')' outside parentheses, in place of an operand or after one, is unexpected. */
  lemma StrayRParen(s: TokenStream, scope: Block, pos: nat, prevOp: Option<Token>, operand: Parsed)
    requires pos <= |s.tokens| && Prefix(s, scope, pos) == Ok(operand) && Look(s, operand.pos).tokenType == RPAREN
    ensures Infix(s, scope, pos, prevOp, false) == Err(SyntaxError(UnexpectedRParen, LineAt(s, operand.pos)))
  {
  }

  // ---------------------------------------------------------------- more streams

  /** `a=b=c;` with `a` and `b` mutable: '=' is right to left, so the inner one hands `b` back and the outer loop meets '=' after the node `a=b`, which is no variable. `c` is never looked up. */
  lemma ChainedAssignmentRejected(s: TokenStream, scope: Block, va: VarInfo, vb: VarInfo)
    requires |s.tokens| == 6 && s.tokens[0] == A && s.tokens[1] == Assign && s.tokens[2] == B
    requires s.tokens[3] == Assign && s.tokens[4] == C && s.tokens[5] == Semi
    requires GetSymbol(scope, "a") == Some(va) && va.mutable
    requires GetSymbol(scope, "b") == Some(vb) && vb.mutable
    ensures Infix(s, scope, 0, None, false) == Err(SyntaxError(ExpectedVariableBeforeAssign, 1))
  {
    var la, lb := Var(A, va.dataType, va.mutable), Var(B, vb.dataType, vb.mutable);
    ExampleLexemes();
    VarOperand(s, scope, 0, va);
    VarOperand(s, scope, 2, vb);
    // the inner '=' ranks below the outer one: `b` is its whole right operand
    assert Comparable(ASSIGNMENT, ASSIGNMENT) && CmpPreced(ASSIGNMENT, ASSIGNMENT) < 0;
    MeetsOperator(s, scope, 3, Some(Assign), false, lb);
    YieldsToLooser(s, scope, 3, Assign, false, lb);
    StartsWithOperand(s, scope, 2, Some(Assign), false, Parsed(Some(lb), 3));
    var assignment := Binary(Assign, la, Some(lb), None);
    MeetsOperator(s, scope, 3, None, false, assignment);
    RejectsAssignment(s, scope, 3, None, false, assignment);
    MeetsOperator(s, scope, 1, None, false, la);
    TakesOperator(s, scope, 1, None, false, la, Parsed(Some(lb), 3));
    StartsWithOperand(s, scope, 0, None, false, Parsed(Some(la), 1));
  }

  /** `--12.;`: two prefix operators build a two-deep unary chain over the literal. */
  lemma PrefixChainExample(s: TokenStream, scope: Block)
    requires |s.tokens| == 4 && s.tokens[0] == Minus && s.tokens[1] == Minus && s.tokens[2] == Twelve && s.tokens[3] == Semi
    ensures Infix(s, scope, 0, None, false) ==
      Ok(Parsed(Some(Unary(Minus, Unary(Minus, Literal(Twelve, FloatType), None), None)), 3))
  {
    var lit := Literal(Twelve, FloatType);
    assert PrefixOps(s, 2) == [];
    assert PrefixOps(s, 1) == [Minus];
    assert PrefixOps(s, 0) == [Minus, Minus];
    assert Primary(s, scope, 2) == Ok(Parsed(Some(lit), 3));
    assert Chain([Minus], lit) == Unary(Minus, lit, None);
    assert Prefix(s, scope, 0) == Ok(Parsed(Some(Chain([Minus, Minus], lit)), 3));
    var chain := Unary(Minus, Unary(Minus, lit, None), None);
    EndsAtSemicolon(s, scope, 3, None, chain);
    StartsWithOperand(s, scope, 0, None, false, Parsed(Some(chain), 3));
  }

  /** `1%2%3;`: MOD has no associativity entry, so comparing the second '%' with the first fails. */
  lemma ModChainFails(s: TokenStream, scope: Block)
    requires |s.tokens| == 6 && s.tokens[0] == One && s.tokens[1] == Percent && s.tokens[2] == Two
    requires s.tokens[3] == Percent && s.tokens[4] == Three && s.tokens[5] == Semi
    ensures Infix(s, scope, 0, None, false) == Err(NullPointer)
  {
    var l1, l2 := Literal(One, IntType), Literal(Two, IntType);
    ExampleLexemes();
    ModComparisons(MOD);
    LiteralOperand(s, scope, 0);
    LiteralOperand(s, scope, 2);
    MeetsOperator(s, scope, 3, Some(Percent), false, l2);
    assert InfixOperator(s, scope, 3, Some(Percent), false, l2) == Err(NullPointer);
    StartsWithOperand(s, scope, 2, Some(Percent), false, Parsed(Some(l2), 3));
    MeetsOperator(s, scope, 1, None, false, l1);
    assert InfixOperator(s, scope, 1, None, false, l1) == Err(NullPointer);
    StartsWithOperand(s, scope, 0, None, false, Parsed(Some(l1), 1));
  }

  /** `()` at the start of `();`: the parentheses are consumed and yield no operand. */
  lemma EmptyParensOperand(s: TokenStream, scope: Block)
    requires |s.tokens| == 3 && s.tokens[0] == Open && s.tokens[1] == Close
    ensures Prefix(s, scope, 0) == Ok(Parsed(None, 2))
  {
    assert Infix(s, scope, 1, None, true) == Ok(Parsed(None, 1)) by {
      NoOperand(s, scope, 1);
      ClosesParen(s, scope, 1, None, None);
    }
    ParenGroup(s, scope, 0, Parsed(None, 1));
  }

  /** `();`: empty parentheses yield nothing, so the ';' that follows is the empty statement. */
  lemma EmptyParens(s: TokenStream, scope: Block)
    requires |s.tokens| == 3 && s.tokens[0] == Open && s.tokens[1] == Close && s.tokens[2] == Semi
    ensures Infix(s, scope, 0, None, false) == Ok(Parsed(Some(Empty), 2))
  {
    EmptyParensOperand(s, scope);
    StartsWithOperand(s, scope, 0, None, false, Parsed(None, 2));
  }

  /** `1+)` inside the parentheses of `(1+);`: the ')' ends the missing right operand, leaving a one-armed '+'. */
  lemma OneArmedSum(s: TokenStream, scope: Block)
    requires |s.tokens| == 5 && s.tokens[1] == One && s.tokens[2] == Plus && s.tokens[3] == Close
    ensures Infix(s, scope, 1, None, true) == Ok(Parsed(Some(Binary(Plus, Literal(One, IntType), None, None)), 3))
  {
    var l1 := Literal(One, IntType);
    ExampleLexemes();
    LiteralOperand(s, scope, 1);
    NoOperand(s, scope, 3);
    StartsWithOperand(s, scope, 3, Some(Plus), true, Parsed(None, 3));
    ClosesParen(s, scope, 3, Some(Plus), None);
    MeetsOperator(s, scope, 2, None, true, l1);
    TakesOperator(s, scope, 2, None, true, l1, Parsed(None, 3));
    ClosesParen(s, scope, 3, None, Some(Binary(Plus, l1, None, None)));
    StartsWithOperand(s, scope, 1, None, true, Parsed(Some(l1), 2));
  }

  /** `(1+)` at the start of `(1+);`: one operand, the one-armed '+'. */
  lemma OneArmedOperand(s: TokenStream, scope: Block)
    requires |s.tokens| == 5 && s.tokens[0] == Open && s.tokens[1] == One && s.tokens[2] == Plus && s.tokens[3] == Close
    ensures Prefix(s, scope, 0) == Ok(Parsed(Some(Binary(Plus, Literal(One, IntType), None, None)), 4))
  {
    var inner := Parsed(Some(Binary(Plus, Literal(One, IntType), None, None)), 3);
    OneArmedSum(s, scope);
    assert Look(s, 0) == Open && Look(s, 3) == Close;
    ParenGroup(s, scope, 0, inner);
  }

  /** `(1+);`: the parse succeeds with the one-armed '+'; analysis then fails on it. */
  lemma MissingRightOperand(s: TokenStream, scope: Block)
    requires |s.tokens| == 5 && s.tokens[0] == Open && s.tokens[1] == One && s.tokens[2] == Plus
    requires s.tokens[3] == Close && s.tokens[4] == Semi
    ensures Infix(s, scope, 0, None, false) == Ok(Parsed(Some(Binary(Plus, Literal(One, IntType), None, None)), 4))
  {
    var sum := Binary(Plus, Literal(One, IntType), None, None);
    OneArmedOperand(s, scope);
    EndsAtSemicolon(s, scope, 4, None, sum);
    StartsWithOperand(s, scope, 0, None, false, Parsed(Some(sum), 4));
  }

  /** `();` as a statement: the empty statement, its ';' consumed, left alone by analysis. */
  lemma EmptyParensStatement(s: TokenStream, scope: Block, compat: map<CompatKey, TypeInfo>)
    requires |s.tokens| == 3 && s.tokens[0] == Open && s.tokens[1] == Close && s.tokens[2] == Semi
    ensures ParseExpr(s, scope, 0, compat) == Ok(Parsed(Some(Empty), 3))
  {
    EmptyParens(s, scope);
  }

  /** `(1+);` as a statement: analysis reads the type of the missing right operand and fails. */
  lemma MissingRightOperandStatement(s: TokenStream, scope: Block, compat: map<CompatKey, TypeInfo>)
    requires |s.tokens| == 5 && s.tokens[0] == Open && s.tokens[1] == One && s.tokens[2] == Plus
    requires s.tokens[3] == Close && s.tokens[4] == Semi
    ensures ParseExpr(s, scope, 0, compat) == Err(NullPointer)
  {
    MissingRightOperand(s, scope);
    var l1 := Literal(One, IntType);
    assert Analyze(l1, compat, LineAt(s, 5)) == Ok(l1);
    assert Analyze(Binary(Plus, l1, None, None), compat, LineAt(s, 5)) == Err(NullPointer);
  }

  /** `(2+3)` at position 2 of `1*(2+3);`: the parenthesised sum is one operand. */
  lemma ParenthesisedSum(s: TokenStream, scope: Block)
    requires |s.tokens| == 8 && s.tokens[2] == Open && s.tokens[3] == Two
    requires s.tokens[4] == Plus && s.tokens[5] == Three && s.tokens[6] == Close
    ensures Prefix(s, scope, 2) == Ok(Parsed(Some(Binary(Plus, Literal(Two, IntType), Some(Literal(Three, IntType)), None)), 7))
  {
    var l2, l3 := Literal(Two, IntType), Literal(Three, IntType);
    var sum := Binary(Plus, l2, Some(l3), None);
    ExampleLexemes();
    LiteralOperand(s, scope, 3);
    LiteralOperand(s, scope, 5);
    ClosesParen(s, scope, 6, Some(Plus), Some(l3));
    StartsWithOperand(s, scope, 5, Some(Plus), true, Parsed(Some(l3), 6));
    MeetsOperator(s, scope, 4, None, true, l2);
    TakesOperator(s, scope, 4, None, true, l2, Parsed(Some(l3), 6));
    ClosesParen(s, scope, 6, None, Some(sum));
    StartsWithOperand(s, scope, 3, None, true, Parsed(Some(l2), 4));
    ParenGroup(s, scope, 2, Parsed(Some(sum), 6));
  }

  /** `1*(2+3);`: the parentheses keep the looser '+' below the '*', `(1*(2+3))`. */
  lemma ParensKeepGrouping(s: TokenStream, scope: Block)
    requires |s.tokens| == 8 && s.tokens[0] == One && s.tokens[1] == Times && s.tokens[2] == Open && s.tokens[3] == Two
    requires s.tokens[4] == Plus && s.tokens[5] == Three && s.tokens[6] == Close && s.tokens[7] == Semi
    ensures Infix(s, scope, 0, None, false) ==
      Ok(Parsed(Some(Binary(Times, Literal(One, IntType), Some(Binary(Plus, Literal(Two, IntType), Some(Literal(Three, IntType)), None)), None)), 7))
  {
    var l1 := Literal(One, IntType);
    var sum := Binary(Plus, Literal(Two, IntType), Some(Literal(Three, IntType)), None);
    var product := Binary(Times, l1, Some(sum), None);
    ExampleLexemes();
    LiteralOperand(s, scope, 0);
    ParenthesisedSum(s, scope);
    EndsAtSemicolon(s, scope, 7, Some(Times), sum);
    StartsWithOperand(s, scope, 2, Some(Times), false, Parsed(Some(sum), 7));
    MeetsOperator(s, scope, 1, None, false, l1);
    TakesOperator(s, scope, 1, None, false, l1, Parsed(Some(sum), 7));
    EndsAtSemicolon(s, scope, 7, None, product);
    StartsWithOperand(s, scope, 0, None, false, Parsed(Some(l1), 1));
  }
}
