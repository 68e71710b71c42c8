/**
 * Data types and the type table: the types the parsers attach to nodes, found
 * by their id ("int") or, for literals, by the literal's token type.
 */
module Types {
  import opened Wrappers
  import opened Tokens

  /** A data type: its id and its size in bytes. The table hands out one instance per type, so equality of values stands for identity. */
  datatype TypeInfo = TypeInfo(id: string, size: int)

  const IntType := TypeInfo("int", 4)
  const FloatType := TypeInfo("float", 4)
  const BoolType := TypeInfo("bool", 4)

  /** The id map after initialisation. */
  const TypesById: map<string, TypeInfo> := map["int" := IntType, "float" := FloatType, "bool" := BoolType]

  /** The literal map after initialisation. */
  const LiteralTypes: map<TokenType, TypeInfo> := map[INT_LITERAL := IntType, FLOAT_LITERAL := FloatType, BOOL_LITERAL := BoolType]

  /** `getType(String)` on the initialised table. */
  function TypeNamed(id: string): (r: Option<TypeInfo>)
    ensures r.Some? <==> id in {"int", "float", "bool"}
    ensures r.Some? ==> r.value.id == id && r.value.size == 4
  {
    if id in TypesById then Some(TypesById[id]) else None
  }

  /** `getType(TokenType)` on the initialised table: only the three literal token types have a type. */
  function LiteralType(literalType: TokenType): (r: Option<TypeInfo>)
    ensures r.Some? <==> literalType in {INT_LITERAL, FLOAT_LITERAL, BOOL_LITERAL}
    ensures r.Some? ==> TypeNamed(r.value.id) == r
  {
    if literalType in LiteralTypes then Some(LiteralTypes[literalType]) else None
  }

  class TypeTable {
    var strTypeMap: map<string, TypeInfo>
    var literalTypeMap: map<TokenType, TypeInfo>

    /** The singleton's one-time initialisation: the three literal types. */
    constructor Init()
      ensures strTypeMap == TypesById && literalTypeMap == LiteralTypes
    {
      strTypeMap := map[];
      literalTypeMap := map[];
      new;
      RegisterLiteral(INT_LITERAL, TypeInfo("int", 4));
      RegisterLiteral(FLOAT_LITERAL, TypeInfo("float", 4));
      RegisterLiteral(BOOL_LITERAL, TypeInfo("bool", 4));
    }

    /** `register(TypeInfo)`: the type becomes findable by its id, replacing any type with the same id. */
    method Register(t: TypeInfo)
      modifies this
      ensures strTypeMap == old(strTypeMap)[t.id := t]
      ensures literalTypeMap == old(literalTypeMap)
      ensures GetType(t.id) == Some(t)
    {
      strTypeMap := strTypeMap[t.id := t];
    }

    /** `register(TokenType, TypeInfo)`: the literal maps to the type, and the same type is findable by its id. */
    method RegisterLiteral(literalType: TokenType, t: TypeInfo)
      modifies this
      ensures literalTypeMap == old(literalTypeMap)[literalType := t]
      ensures strTypeMap == old(strTypeMap)[t.id := t]
      ensures GetLiteralType(literalType) == Some(t) && GetType(t.id) == Some(t)
    {
      literalTypeMap := literalTypeMap[literalType := t];
      Register(t);
    }

    /** `getType(String)`. */
    function GetType(id: string): (r: Option<TypeInfo>)
      reads this
      ensures r.Some? <==> id in strTypeMap
      ensures r.Some? ==> r.value == strTypeMap[id]
    {
      if id in strTypeMap then Some(strTypeMap[id]) else None
    }

    /** `getType(TokenType)`. */
    function GetLiteralType(literalType: TokenType): (r: Option<TypeInfo>)
      reads this
      ensures r.Some? <==> literalType in literalTypeMap
      ensures r.Some? ==> r.value == literalTypeMap[literalType]
    {
      if literalType in literalTypeMap then Some(literalTypeMap[literalType]) else None
    }
  }

  /** The literal types are the ones the initialised table gives out: int, float and bool, each of size 4. */
  lemma LiteralTypesAre()
    ensures LiteralType(INT_LITERAL) == Some(TypeInfo("int", 4))
    ensures LiteralType(FLOAT_LITERAL) == Some(TypeInfo("float", 4))
    ensures LiteralType(BOOL_LITERAL) == Some(TypeInfo("bool", 4))
    ensures LiteralType(ID).None? && LiteralType(TYPE_ID).None?
  {
  }
}
