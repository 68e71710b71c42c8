/**
 * The older reserved-word registry and its operator table. Entries are keyed
 * by token type alone: the kind a lookup asks for plays no part in matching,
 * and the found entry is then cast to the asked kind.
 */
module Reserved {
  import opened Wrappers
  import opened Exceptions
  import opened Tokens

  datatype ReservedType = KEYWORD | TYPE | OPERATOR

  datatype OperatorType = NONE | UNARY | BINARY

  datatype ReservedInfo =
    | KeywordInfo(id: TokenType)
    | TypeInfo(id: TokenType, size: int)
    | OperatorInfo(id: TokenType, preced: int, leftToRight: bool, opType: OperatorType)
  {
    function ReservedTypeOf(): ReservedType {
      match this
      case KeywordInfo(_) => KEYWORD
      case TypeInfo(_, _) => TYPE
      case OperatorInfo(_, _, _, _) => OPERATOR
    }
  }

  /**
   * The registry after initialisation, built registration by registration;
   * the second BOOL_LITERAL registration replaces the first with an equal entry.
   */
  const ReservedEntries: map<TokenType, ReservedInfo> :=
    map[][MUTABLE_ID_DECL := KeywordInfo(MUTABLE_ID_DECL)]
         [IMMUTABLE_ID_DECL := KeywordInfo(IMMUTABLE_ID_DECL)]
         [BOOL_LITERAL := KeywordInfo(BOOL_LITERAL)]
         [BOOL_LITERAL := KeywordInfo(BOOL_LITERAL)]
         [INT_TYPE_ID := TypeInfo(INT_TYPE_ID, 4)]
         [FLOAT_TYPE_ID := TypeInfo(FLOAT_TYPE_ID, 4)]
         [BOOL_TYPE_ID := TypeInfo(BOOL_TYPE_ID, 1)]
         [ADD := OperatorInfo(ADD, 2, true, BINARY)]
         [SUB := OperatorInfo(SUB, 2, true, BINARY)]
         [MULT := OperatorInfo(MULT, 3, true, BINARY)]
         [DIV := OperatorInfo(DIV, 3, true, BINARY)]
         [MOD := OperatorInfo(MOD, 3, true, BINARY)]
         [POW := OperatorInfo(POW, 4, true, BINARY)]
         [DOT := OperatorInfo(DOT, 0, true, BINARY)]
         [COLON := OperatorInfo(COLON, 0, true, BINARY)]
         [LPAREN := OperatorInfo(LPAREN, 0, true, NONE)]
         [RPAREN := OperatorInfo(RPAREN, 0, true, NONE)]
         [ASSIGNMENT := OperatorInfo(ASSIGNMENT, 1, false, BINARY)]
         [SEMICOLON := OperatorInfo(SEMICOLON, 0, false, NONE)]

  /** A lookup of `id` cast to `kind`: null when absent, a failed cast when the entry is of another kind. */
  function CastTo(entries: map<TokenType, ReservedInfo>, id: TokenType, kind: ReservedType): (r: Result<Option<ReservedInfo>>)
    ensures id !in entries ==> r == Ok(None)
    ensures id in entries && entries[id].ReservedTypeOf() == kind ==> r == Ok(Some(entries[id]))
    ensures id in entries && entries[id].ReservedTypeOf() != kind ==> r == Err(ClassCast)
  {
    if id !in entries then Ok(None)
    else if entries[id].ReservedTypeOf() == kind then Ok(Some(entries[id]))
    else Err(ClassCast)
  }

  class ReservedTable {
    var reservedMap: map<TokenType, ReservedInfo>

    /** The one-time initialisation of `getInstance`, registration by registration. */
    constructor Init()
      ensures reservedMap == ReservedEntries
    {
      reservedMap := map[];
      new;
      Set(KeywordInfo(MUTABLE_ID_DECL));
      Set(KeywordInfo(IMMUTABLE_ID_DECL));
      Set(KeywordInfo(BOOL_LITERAL));
      Set(KeywordInfo(BOOL_LITERAL));
      Set(TypeInfo(INT_TYPE_ID, 4));
      Set(TypeInfo(FLOAT_TYPE_ID, 4));
      Set(TypeInfo(BOOL_TYPE_ID, 1));
      Set(OperatorInfo(ADD, 2, true, BINARY));
      Set(OperatorInfo(SUB, 2, true, BINARY));
      Set(OperatorInfo(MULT, 3, true, BINARY));
      Set(OperatorInfo(DIV, 3, true, BINARY));
      Set(OperatorInfo(MOD, 3, true, BINARY));
      Set(OperatorInfo(POW, 4, true, BINARY));
      Set(OperatorInfo(DOT, 0, true, BINARY));
      Set(OperatorInfo(COLON, 0, true, BINARY));
      Set(OperatorInfo(LPAREN, 0, true, NONE));
      Set(OperatorInfo(RPAREN, 0, true, NONE));
      Set(OperatorInfo(ASSIGNMENT, 1, false, BINARY));
      Set(OperatorInfo(SEMICOLON, 0, false, NONE));
    }

    /** `set`: insert, or replace the entry whose key (the token type) is equal. */
    method Set(info: ReservedInfo)
      modifies this
      ensures reservedMap == old(reservedMap)[info.id := info]
    {
      reservedMap := reservedMap[info.id := info];
    }

    /** `getKeyword`. */
    function GetKeyword(id: TokenType): Result<Option<ReservedInfo>>
      reads this
    {
      CastTo(reservedMap, id, KEYWORD)
    }

    /** `getOperator`. */
    function GetOperator(id: TokenType): Result<Option<ReservedInfo>>
      reads this
    {
      CastTo(reservedMap, id, OPERATOR)
    }

    /** `getType`. */
    function GetType(id: TokenType): Result<Option<ReservedInfo>>
      reads this
    {
      CastTo(reservedMap, id, TYPE)
    }
  }

  /** The keywords of the initialised registry, one entry for the twice-registered BOOL_LITERAL. */
  lemma RegisteredKeywords()
    ensures CastTo(ReservedEntries, MUTABLE_ID_DECL, KEYWORD) == Ok(Some(KeywordInfo(MUTABLE_ID_DECL)))
    ensures CastTo(ReservedEntries, IMMUTABLE_ID_DECL, KEYWORD) == Ok(Some(KeywordInfo(IMMUTABLE_ID_DECL)))
    ensures CastTo(ReservedEntries, BOOL_LITERAL, KEYWORD) == Ok(Some(KeywordInfo(BOOL_LITERAL)))
  {
  }

  /** The type sizes of the initialised registry. */
  lemma RegisteredTypes()
    ensures CastTo(ReservedEntries, INT_TYPE_ID, TYPE) == Ok(Some(TypeInfo(INT_TYPE_ID, 4)))
    ensures CastTo(ReservedEntries, FLOAT_TYPE_ID, TYPE) == Ok(Some(TypeInfo(FLOAT_TYPE_ID, 4)))
    ensures CastTo(ReservedEntries, BOOL_TYPE_ID, TYPE) == Ok(Some(TypeInfo(BOOL_TYPE_ID, 1)))
  {
  }

  /** The precedences of the initialised registry: multiplicative above additive, assignment just above punctuation and the only right-to-left binary operator. */
  lemma RegisteredOperators(id: TokenType)
    requires id in ReservedEntries && ReservedEntries[id].OperatorInfo?
    ensures id in {ADD, SUB} <==> ReservedEntries[id].preced == 2
    ensures id in {MULT, DIV, MOD} <==> ReservedEntries[id].preced == 3
    ensures id == POW <==> ReservedEntries[id].preced == 4
    ensures id == ASSIGNMENT <==> ReservedEntries[id].preced == 1
    ensures id in {DOT, COLON, LPAREN, RPAREN, SEMICOLON} <==> ReservedEntries[id].preced == 0
    ensures !ReservedEntries[id].leftToRight <==> id in {ASSIGNMENT, SEMICOLON}
    ensures ReservedEntries[id].opType == NONE <==> id in {LPAREN, RPAREN, SEMICOLON}
  {
  }

  /** Matching ignores the asked kind: asking for the wrong kind finds the entry and fails the cast; an unregistered id is null. */
  lemma KindIgnoredByMatching(id: TokenType, kind: ReservedType)
    ensures id !in ReservedEntries ==> CastTo(ReservedEntries, id, kind) == Ok(None)
    ensures id in ReservedEntries ==> CastTo(ReservedEntries, id, kind).Ok? == (ReservedEntries[id].ReservedTypeOf() == kind)
    ensures CastTo(ReservedEntries, ADD, KEYWORD) == Err(ClassCast)
  {
  }

  // ---------------------------------------------------------------- the older operator table

  const OldPrefixOps: set<TokenType> := {ADD, SUB}
  const OldInfixOps: set<TokenType> := {ADD, SUB, MULT, DIV, MOD}
  const OldPostfixOps: set<TokenType> := {}
  const OldPrecedMap: map<TokenType, int> := map[ADD := 10, SUB := 10, MULT := 20, DIV := 20]
  const OldAssociativityMap: map<TokenType, bool> := map[ADD := true, SUB := true, MULT := true, DIV := true]

  /** `getPreced`: the precedence, or -1 for an operator without one. */
  function OldPreced(opType: TokenType): (p: int)
    ensures opType !in OldPrecedMap ==> p == -1
    ensures opType in OldPrecedMap ==> p == OldPrecedMap[opType]
  {
    if opType in OldPrecedMap then OldPrecedMap[opType] else -1
  }

  /** Whether `cmpPreced` can return: equal precedences unbox the first operator's associativity. */
  predicate OldComparable(opType1: TokenType, opType2: TokenType) {
    OldPreced(opType1) != OldPreced(opType2) || opType1 in OldAssociativityMap
  }

  /** `cmpPreced`: the comparison of the precedences, and for equal ones +1 exactly when the first operator is left-to-right. */
  function OldCmpPreced(opType1: TokenType, opType2: TokenType): (c: int)
    requires OldComparable(opType1, opType2)
    ensures c == 1 || c == -1
    ensures OldPreced(opType1) != OldPreced(opType2) ==> (c == 1 <==> OldPreced(opType1) > OldPreced(opType2))
    ensures OldPreced(opType1) == OldPreced(opType2) ==> (c == 1 <==> OldAssociativityMap[opType1])
  {
    var preced1 := OldPreced(opType1);
    var preced2 := OldPreced(opType2);
    if preced1 != preced2 then (if preced1 < preced2 then -1 else 1)
    else if OldAssociativityMap[opType1] then 1 else -1
  }

  class OldOperatorTable {
    var prefixOps: set<TokenType>
    var infixOps: set<TokenType>
    var postfixOps: set<TokenType>
    var precedMap: map<TokenType, int>
    var associativityMap: map<TokenType, bool>

    /** The one-time initialisation of `getInstance`. */
    constructor Init()
      ensures prefixOps == OldPrefixOps && infixOps == OldInfixOps && postfixOps == OldPostfixOps
      ensures precedMap == OldPrecedMap && associativityMap == OldAssociativityMap
    {
      prefixOps := {ADD, SUB};
      infixOps := {ADD, SUB, MULT, DIV, MOD};
      postfixOps := {};
      precedMap := map[ADD := 10, SUB := 10, MULT := 20, DIV := 20];
      associativityMap := map[ADD := true, SUB := true, MULT := true, DIV := true];
    }
  }

  /** The older table has no ASSIGNMENT among its infix operators, and MOD has neither precedence nor associativity. */
  lemma OldFixities(id: TokenType)
    ensures id in OldInfixOps <==> id in {ADD, SUB, MULT, DIV, MOD}
    ensures ASSIGNMENT !in OldInfixOps && OldPostfixOps == {}
    ensures OldPreced(MOD) == -1 && !OldComparable(MOD, MOD)
  {
  }
}
