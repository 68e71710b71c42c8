/**
 * The reserved-symbol registry the lexer table is built from: keywords, type
 * names and operators, each registered under the enumeration name of its
 * token type, plus variables registered under (scope id, name).
 *
 * The Java table is a `HashMap<SymbolInfo, SymbolInfo>` whose keys compare by
 * id only (variables: by id and by scope id). A reserved symbol's id is the
 * name of its token type and names are injective (`Tokens.NameInjective`), so
 * the model files a reserved symbol under its token type: two reserved
 * symbols share a key exactly when their ids are equal. The lookups take the
 * token type whose name the Java caller passes as the id.
 */
module Symbols {
  import opened Wrappers
  import opened Exceptions
  import opened Tokens

  datatype SymbolType = KEYWORD | TYPE | OPERATOR | VARIABLE

  datatype OperatorType = NONE | UNARY | BINARY

  datatype SymbolInfo =
    | KeywordInfo(tokenType: TokenType)
    | TypeInfo(tokenType: TokenType, size: int)
    | OperatorInfo(tokenType: TokenType, preced: int, leftToRight: bool, opType: OperatorType)
      /** A variable; its scope is represented by the scope's id, the only part scope equality looks at. */
    | VarInfo(name: string, scopeId: string, dataType: Option<SymbolInfo>, mutable: bool)
  {
    /** `getId`: reserved symbols are named after their token type. */
    function Id(): string {
      if VarInfo? then name else Name(tokenType)
    }

    function Kind(): SymbolType {
      match this
      case KeywordInfo(_) => KEYWORD
      case TypeInfo(_, _) => TYPE
      case OperatorInfo(_, _, _, _) => OPERATOR
      case VarInfo(_, _, _, _) => VARIABLE
    }

    /** `getTokenType`: a variable's token type is VAR. */
    function TokenTypeOf(): TokenType {
      if VarInfo? then VAR else tokenType
    }
  }

  /** What the table's key equality distinguishes. */
  datatype Key = ReservedKey(tokenType: TokenType) | VarKey(id: string, scopeId: string)

  function KeyOf(symbol: SymbolInfo): (k: Key)
    ensures k.VarKey? <==> symbol.VarInfo?
    ensures k.ReservedKey? ==> Name(k.tokenType) == symbol.Id()
    ensures k.VarKey? ==> k.id == symbol.Id()
  {
    if symbol.VarInfo? then VarKey(symbol.name, symbol.scopeId) else ReservedKey(symbol.tokenType)
  }

  /** Two symbols share a key exactly when Java's `equals` on them holds: equal ids, and for variables equal scope ids. */
  lemma {:induction false} KeyOfMatchesEquals(s: SymbolInfo, u: SymbolInfo)
    requires s.VarInfo? == u.VarInfo?
    ensures KeyOf(s) == KeyOf(u) <==> s.Id() == u.Id() && (s.VarInfo? ==> s.scopeId == u.scopeId)
  {
    if !s.VarInfo? {
      NameInjective(s.tokenType, u.tokenType);
    }
  }

  /** Every entry is stored under its own key. */
  ghost predicate WellKeyed(m: map<Key, SymbolInfo>) {
    forall k | k in m :: KeyOf(m[k]) == k
  }

  function Find(m: map<Key, SymbolInfo>, k: Key): Option<SymbolInfo> {
    if k in m then Some(m[k]) else None
  }

  /** A Java downcast of a possibly-null symbol: null passes, an entry of another kind fails. */
  function Cast(found: Option<SymbolInfo>, kind: SymbolType): (r: Result<Option<SymbolInfo>>)
    ensures found.None? ==> r == Ok(None)
    ensures found.Some? && found.value.Kind() == kind ==> r == Ok(found)
    ensures found.Some? && found.value.Kind() != kind ==> r == Err(ClassCast)
  {
    match found
    case None => Ok(None)
    case Some(s) => if s.Kind() == kind then Ok(found) else Err(ClassCast)
  }

  /** The reserved registry as `getInstance` leaves it. */
  const Reserved: map<Key, SymbolInfo> := map[
    ReservedKey(MUTABLE_ID_DECL) := KeywordInfo(MUTABLE_ID_DECL),
    ReservedKey(IMMUTABLE_ID_DECL) := KeywordInfo(IMMUTABLE_ID_DECL),
    ReservedKey(BOOL_LITERAL) := KeywordInfo(BOOL_LITERAL),
    ReservedKey(INT_TYPE_ID) := TypeInfo(INT_TYPE_ID, 4),
    ReservedKey(FLOAT_TYPE_ID) := TypeInfo(FLOAT_TYPE_ID, 4),
    ReservedKey(BOOL_TYPE_ID) := TypeInfo(BOOL_TYPE_ID, 1),
    ReservedKey(ADD) := OperatorInfo(ADD, 0, true, BINARY),
    ReservedKey(SUB) := OperatorInfo(SUB, 0, true, BINARY),
    ReservedKey(MULT) := OperatorInfo(MULT, 1, true, BINARY),
    ReservedKey(DIV) := OperatorInfo(DIV, 1, true, BINARY),
    ReservedKey(MOD) := OperatorInfo(MOD, 1, true, BINARY),
    ReservedKey(BITWISE_NOT) := OperatorInfo(BITWISE_NOT, 1, true, UNARY),
    ReservedKey(BITWISE_AND) := OperatorInfo(BITWISE_AND, 1, true, BINARY),
    ReservedKey(BITWISE_OR) := OperatorInfo(BITWISE_OR, 1, true, BINARY),
    ReservedKey(LOGICAL_NOT) := OperatorInfo(LOGICAL_NOT, 1, true, UNARY),
    ReservedKey(LOGICAL_AND) := OperatorInfo(LOGICAL_AND, 1, true, BINARY),
    ReservedKey(LOGICAL_OR) := OperatorInfo(LOGICAL_OR, 1, true, BINARY),
    ReservedKey(DOT) := OperatorInfo(DOT, 0, true, BINARY),
    ReservedKey(COLON) := OperatorInfo(COLON, 0, true, BINARY),
    ReservedKey(LPAREN) := OperatorInfo(LPAREN, 0, true, NONE),
    ReservedKey(RPAREN) := OperatorInfo(RPAREN, 0, true, NONE),
    ReservedKey(SEMICOLON) := OperatorInfo(SEMICOLON, 0, false, NONE),
    ReservedKey(ASSIGNMENT) := OperatorInfo(ASSIGNMENT, 0, false, BINARY)
  ]

  class SymbolTable {
    var symbols: map<Key, SymbolInfo>

    ghost predicate Valid()
      reads this
    {
      WellKeyed(symbols)
    }

    /** The singleton after its one-time initialisation: the registrations of `getInstance`, in order. */
    constructor Init()
      ensures Valid()
      ensures symbols == Reserved
    {
      symbols := map[];
      new;
      var previous := Set(KeywordInfo(MUTABLE_ID_DECL));
      previous := Set(KeywordInfo(IMMUTABLE_ID_DECL));
      previous := Set(KeywordInfo(BOOL_LITERAL));
      previous := Set(KeywordInfo(BOOL_LITERAL));
      assert symbols == map[ReservedKey(MUTABLE_ID_DECL) := KeywordInfo(MUTABLE_ID_DECL),
        ReservedKey(IMMUTABLE_ID_DECL) := KeywordInfo(IMMUTABLE_ID_DECL), ReservedKey(BOOL_LITERAL) := KeywordInfo(BOOL_LITERAL)];
      previous := Set(TypeInfo(INT_TYPE_ID, 4));
      previous := Set(TypeInfo(FLOAT_TYPE_ID, 4));
      previous := Set(TypeInfo(BOOL_TYPE_ID, 1));
      previous := Set(OperatorInfo(ADD, 0, true, BINARY));
      previous := Set(OperatorInfo(SUB, 0, true, BINARY));
      previous := Set(OperatorInfo(MULT, 1, true, BINARY));
      previous := Set(OperatorInfo(DIV, 1, true, BINARY));
      previous := Set(OperatorInfo(MOD, 1, true, BINARY));
      previous := Set(OperatorInfo(BITWISE_NOT, 1, true, UNARY));
      previous := Set(OperatorInfo(BITWISE_AND, 1, true, BINARY));
      previous := Set(OperatorInfo(BITWISE_OR, 1, true, BINARY));
      previous := Set(OperatorInfo(LOGICAL_NOT, 1, true, UNARY));
      previous := Set(OperatorInfo(LOGICAL_AND, 1, true, BINARY));
      previous := Set(OperatorInfo(LOGICAL_OR, 1, true, BINARY));
      previous := Set(OperatorInfo(DOT, 0, true, BINARY));
      previous := Set(OperatorInfo(COLON, 0, true, BINARY));
      previous := Set(OperatorInfo(LPAREN, 0, true, NONE));
      previous := Set(OperatorInfo(RPAREN, 0, true, NONE));
      previous := Set(OperatorInfo(SEMICOLON, 0, false, NONE));
      previous := Set(OperatorInfo(ASSIGNMENT, 0, false, BINARY));
    }

    /** `set`: insert, or replace the entry with an equal key; the previous entry comes back. */
    method Set(symbol: SymbolInfo) returns (previous: Option<SymbolInfo>)
      modifies this
      ensures symbols == old(symbols)[KeyOf(symbol) := symbol]
      ensures previous == Find(old(symbols), KeyOf(symbol))
      ensures old(Valid()) ==> Valid()
    {
      previous := Find(symbols, KeyOf(symbol));
      symbols := symbols[KeyOf(symbol) := symbol];
    }

    /** `getKeyword(id.name())`. */
    function GetKeyword(id: TokenType): Result<Option<SymbolInfo>>
      reads this
    {
      KeywordIn(symbols, id)
    }

    /** `getOperator(id.name())`. */
    function GetOperator(id: TokenType): Result<Option<SymbolInfo>>
      reads this
    {
      OperatorIn(symbols, id)
    }

    /** `getType(id.name())`. */
    function GetType(id: TokenType): Result<Option<SymbolInfo>>
      reads this
    {
      TypeIn(symbols, id)
    }

    /** `getVar`: only a variable registered with this name and a scope of this id is found. */
    function GetVar(id: string, scopeId: string): (r: Option<SymbolInfo>)
      requires Valid()
      reads this
      ensures r.Some? ==> r.value.VarInfo? && r.value.name == id && r.value.scopeId == scopeId
      ensures r.Some? <==> exists k | k in symbols :: symbols[k].VarInfo? && symbols[k].name == id && symbols[k].scopeId == scopeId
    {
      Find(symbols, VarKey(id, scopeId))
    }
  }

  /** `getKeyword` on a table value: the entry with that id, if any, cast to a keyword. */
  function KeywordIn(symbols: map<Key, SymbolInfo>, id: TokenType): (r: Result<Option<SymbolInfo>>)
    ensures r.Ok? && r.value.Some? <==> ReservedKey(id) in symbols && symbols[ReservedKey(id)].KeywordInfo?
    ensures r.Ok? && r.value.Some? ==> r.value.value == symbols[ReservedKey(id)]
    ensures r.Err? <==> ReservedKey(id) in symbols && !symbols[ReservedKey(id)].KeywordInfo?
  {
    Cast(Find(symbols, ReservedKey(id)), KEYWORD)
  }

  /** `getOperator` on a table value: the entry with that id, if any, cast to an operator. */
  function OperatorIn(symbols: map<Key, SymbolInfo>, id: TokenType): (r: Result<Option<SymbolInfo>>)
    ensures r.Ok? && r.value.Some? <==> ReservedKey(id) in symbols && symbols[ReservedKey(id)].OperatorInfo?
    ensures r.Ok? && r.value.Some? ==> r.value.value == symbols[ReservedKey(id)]
    ensures r.Err? <==> ReservedKey(id) in symbols && !symbols[ReservedKey(id)].OperatorInfo?
  {
    Cast(Find(symbols, ReservedKey(id)), OPERATOR)
  }

  /** `getType` on a table value: the entry with that id, if any, cast to a type. */
  function TypeIn(symbols: map<Key, SymbolInfo>, id: TokenType): (r: Result<Option<SymbolInfo>>)
    ensures r.Ok? && r.value.Some? <==> ReservedKey(id) in symbols && symbols[ReservedKey(id)].TypeInfo?
    ensures r.Ok? && r.value.Some? ==> r.value.value == symbols[ReservedKey(id)]
    ensures r.Err? <==> ReservedKey(id) in symbols && !symbols[ReservedKey(id)].TypeInfo?
  {
    Cast(Find(symbols, ReservedKey(id)), TYPE)
  }

  /** Registering a symbol twice leaves the table as registering it once (BOOL_LITERAL is registered twice). */
  lemma SetTwice(m: map<Key, SymbolInfo>, s: SymbolInfo)
    ensures m[KeyOf(s) := s][KeyOf(s) := s] == m[KeyOf(s) := s]
    ensures Find(m[KeyOf(s) := s], KeyOf(s)) == Some(s)
  {
  }

  /**
   * The registered precedences and directions: ADD, SUB, DOT, COLON, the parentheses,
   * SEMICOLON and ASSIGNMENT are at 0, the other operators at 1, and only SEMICOLON
   * and ASSIGNMENT group right to left.
   */
  lemma ReservedPrecedences()
    ensures forall k | k in Reserved && Reserved[k].OperatorInfo? ::
      (Reserved[k].preced == 0 <==> Reserved[k].tokenType in {ADD, SUB, DOT, COLON, LPAREN, RPAREN, SEMICOLON, ASSIGNMENT})
    ensures forall k | k in Reserved && Reserved[k].OperatorInfo? ::
      (Reserved[k].preced == 1 <==> Reserved[k].tokenType in {MULT, DIV, MOD, BITWISE_NOT, BITWISE_AND, BITWISE_OR, LOGICAL_NOT, LOGICAL_AND, LOGICAL_OR})
    ensures forall k | k in Reserved && Reserved[k].OperatorInfo? ::
      (!Reserved[k].leftToRight <==> Reserved[k].tokenType in {SEMICOLON, ASSIGNMENT})
  {
  }

  /** BOOL_TRUE, BOOL_FALSE, POW and EQ are not registered, so looking them up finds nothing. */
  lemma ReservedMisses()
    ensures ReservedKey(BOOL_TRUE) !in Reserved && ReservedKey(BOOL_FALSE) !in Reserved
    ensures ReservedKey(POW) !in Reserved && ReservedKey(EQ) !in Reserved
  {
  }
}
