/**
 * The parser's operator table: which lexemes are operators, their fixity,
 * precedence and associativity, and the precedence comparison that drives the
 * expression parser. Also the operator-compatibility keys under which the
 * result type of an operator applied to operand types is looked up.
 */
module Operators {
  import opened Wrappers
  import opened Exceptions
  import opened Tokens
  import opened Types

  /** The lexeme map after initialisation. */
  const OpMap: map<string, TokenType> := map[
    "+" := ADD, "-" := SUB, "*" := MULT, "/" := DIV, "%" := MOD, "." := DOT,
    ":" := COLON, "=" := ASSIGNMENT, "(" := LPAREN, ")" := RPAREN, ";" := SEMICOLON]

  const PrefixSet: set<TokenType> := {ADD, SUB}
  const InfixSet: set<TokenType> := {ADD, SUB, MULT, DIV, MOD, ASSIGNMENT}
  const PostfixSet: set<TokenType> := {}

  /** Precedences: MOD has none. */
  const PrecedMap: map<TokenType, int> := map[ADD := 10, SUB := 10, MULT := 20, DIV := 20, ASSIGNMENT := 5]

  /** Associativity: true is left-to-right. MOD has none. */
  const AssociativityMap: map<TokenType, bool> := map[ADD := true, SUB := true, MULT := true, DIV := true, ASSIGNMENT := false]

  /** `getId`: the operator a lexeme denotes, or null. */
  function OperatorId(opStr: string): (r: Option<TokenType>)
    ensures r.Some? <==> opStr in {"+", "-", "*", "/", "%", ".", ":", "=", "(", ")", ";"}
  {
    if opStr in OpMap then Some(OpMap[opStr]) else None
  }

  predicate IsPrefix(id: TokenType) {
    id in PrefixSet
  }

  predicate IsInfix(id: TokenType) {
    id in InfixSet
  }

  predicate IsPostfix(id: TokenType) {
    id in PostfixSet
  }

  /** `getPreced`: the precedence, or -1 for an operator without one. */
  function Preced(id: TokenType): (p: int)
    ensures id !in PrecedMap ==> p == -1
    ensures id in PrecedMap ==> p == PrecedMap[id] >= 5
  {
    if id in PrecedMap then PrecedMap[id] else -1
  }

  /**
   * Whether `cmpPreced(id1, id2)` can return: with equal precedences it
   * unboxes the first operator's associativity, which fails when it has none.
   */
  predicate Comparable(id1: TokenType, id2: TokenType) {
    Preced(id1) != Preced(id2) || id1 in AssociativityMap
  }

  /**
   * `cmpPreced`: +1 when the first operator binds tighter, -1 when looser;
   * for equal precedences +1 exactly when the first is left-to-right. Never 0.
   */
  function CmpPreced(id1: TokenType, id2: TokenType): (c: int)
    requires Comparable(id1, id2)
    ensures c == 1 || c == -1
    ensures Preced(id1) > Preced(id2) ==> c == 1
    ensures Preced(id1) < Preced(id2) ==> c == -1
    ensures Preced(id1) == Preced(id2) ==> (c == 1 <==> AssociativityMap[id1])
  {
    var preced1 := Preced(id1);
    var preced2 := Preced(id2);
    if preced1 != preced2 then (if preced1 < preced2 then -1 else 1)
    else if AssociativityMap[id1] then 1 else -1
  }

  /** The table as the singleton holds it. */
  class OperatorTable {
    var opMap: map<string, TokenType>
    var prefixSet: set<TokenType>
    var infixSet: set<TokenType>
    var postfixSet: set<TokenType>
    var precedMap: map<TokenType, int>
    var associativityMap: map<TokenType, bool>

    /** The one-time initialisation of `getInstance`. */
    constructor Init()
      ensures opMap == OpMap && prefixSet == PrefixSet && infixSet == InfixSet && postfixSet == PostfixSet
      ensures precedMap == PrecedMap && associativityMap == AssociativityMap
    {
      opMap := map[];
      prefixSet := {};
      infixSet := {};
      postfixSet := {};
      precedMap := map[];
      associativityMap := map[];
      new;
      opMap := opMap["+" := ADD]["-" := SUB]["*" := MULT]["/" := DIV]["%" := MOD]["." := DOT]
        [":" := COLON]["=" := ASSIGNMENT]["(" := LPAREN][")" := RPAREN][";" := SEMICOLON];
      prefixSet := prefixSet + {ADD} + {SUB};
      infixSet := infixSet + {ADD} + {SUB} + {MULT} + {DIV} + {MOD} + {ASSIGNMENT};
      precedMap := precedMap[ADD := 10][SUB := 10][MULT := 20][DIV := 20][ASSIGNMENT := 5];
      associativityMap := associativityMap[ADD := true][SUB := true][MULT := true][DIV := true][ASSIGNMENT := false];
    }
  }

  /** ASSIGNMENT has the lowest registered precedence and is the only right-to-left operator. */
  lemma AssignmentLoosest(id: TokenType)
    ensures id in PrecedMap && id != ASSIGNMENT ==> Preced(id) > Preced(ASSIGNMENT)
    ensures id in AssociativityMap ==> (AssociativityMap[id] <==> id != ASSIGNMENT)
  {
  }

  /** The fixities: two prefix operators, six infix operators, no postfix operator; MOD alone has no precedence. */
  lemma Fixities(id: TokenType)
    ensures IsPrefix(id) <==> id == ADD || id == SUB
    ensures IsInfix(id) <==> id in {ADD, SUB, MULT, DIV, MOD, ASSIGNMENT}
    ensures !IsPostfix(id)
    ensures IsInfix(id) ==> (id in PrecedMap <==> id != MOD)
  {
  }

  /** `cmpPreced(MOD, MOD)` cannot return, while MOD against any operator with a precedence compares lower. */
  lemma ModComparisons(id: TokenType)
    ensures !Comparable(MOD, MOD)
    ensures id in PrecedMap ==> Comparable(MOD, id) && CmpPreced(MOD, id) == -1 && CmpPreced(id, MOD) == 1
  {
  }

  // ---------------------------------------------------------------- compatibility keys

  datatype CompatType = UNARY | BINARY

  /**
   * A compatibility key: an operator and the data types of its operand(s).
   * An operand type may be null, as when the operand's type is unknown.
   */
  datatype CompatKey =
    | UnaryCompat(id: TokenType, operand: Option<TypeInfo>)
    | BinaryCompat(id: TokenType, left: Option<TypeInfo>, right: Option<TypeInfo>)
  {
    /** The arity kind the constructor passes up: always UNARY or BINARY by the key's class. */
    function CompatTypeOf(): CompatType {
      if UnaryCompat? then UNARY else BINARY
    }
  }

  /** The base class's equality: same operator id and same arity kind. */
  predicate BaseEquals(a: CompatKey, b: CompatKey) {
    a.id == b.id && a.CompatTypeOf() == b.CompatTypeOf()
  }

  /**
   * The subclasses' `equals`: base equality, the same class, and then equal
   * operand types, compared left before right. Comparing starts by calling
   * `equals` on this key's own operand type, which fails when that type is null.
   */
  function CompatEquals(a: CompatKey, b: CompatKey): (r: Result<bool>)
    ensures r.Err? ==> r.error == NullPointer && BaseEquals(a, b)
    ensures r == Ok(true) <==> a == b && (a.UnaryCompat? ==> a.operand.Some?) && (a.BinaryCompat? ==> a.left.Some? && a.right.Some?)
    ensures a.CompatTypeOf() != b.CompatTypeOf() ==> r == Ok(false)
  {
    if !BaseEquals(a, b) then Ok(false)
    else match a
      case UnaryCompat(_, operand) =>
        if operand.None? then Err(NullPointer) else Ok(operand == b.operand)
      case BinaryCompat(_, left, right) =>
        if left.None? then Err(NullPointer)
        else if left != b.left then Ok(false)
        else if right.None? then Err(NullPointer)
        else Ok(right == b.right)
  }

  /** Operand order matters: swapping two different operand types gives a key that is not equal. */
  lemma OperandOrderMatters(id: TokenType, t: TypeInfo, u: TypeInfo)
    requires t != u
    ensures CompatEquals(BinaryCompat(id, Some(t), Some(u)), BinaryCompat(id, Some(u), Some(t))) == Ok(false)
  {
  }
}
