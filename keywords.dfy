/** The older keyword table: keyword spelling to token type. */
module Keywords {
  import opened Wrappers
  import opened Tokens

  /** The map after initialisation. */
  const KeywordMap: map<string, TokenType> := map["var" := VAR_DECL, "let" := CONST_DECL, "true" := BOOL_LITERAL, "false" := BOOL_LITERAL]

  class KeywordTable {
    var kwMap: map<string, TokenType>

    /** The one-time initialisation of `getInstance`. */
    constructor Init()
      ensures kwMap == KeywordMap
    {
      kwMap := map[];
      new;
      kwMap := kwMap["var" := VAR_DECL];
      kwMap := kwMap["let" := CONST_DECL];
      kwMap := kwMap["true" := BOOL_LITERAL];
      kwMap := kwMap["false" := BOOL_LITERAL];
    }

    /** `getId`: the keyword's token type, or null for any other string. */
    function GetId(kwStr: string): (r: Option<TokenType>)
      reads this
      ensures r.Some? <==> kwStr in kwMap
      ensures r.Some? ==> r.value == kwMap[kwStr]
    {
      if kwStr in kwMap then Some(kwMap[kwStr]) else None
    }
  }

  /** On the initialised table: "var" declares a variable, "let" a constant, both booleans are BOOL_LITERAL, and nothing else is a keyword. */
  lemma KeywordIds(kwStr: string)
    ensures kwStr == "var" ==> KeywordMap[kwStr] == VAR_DECL
    ensures kwStr == "let" ==> KeywordMap[kwStr] == CONST_DECL
    ensures kwStr in {"true", "false"} ==> KeywordMap[kwStr] == BOOL_LITERAL
    ensures kwStr in KeywordMap <==> kwStr in {"var", "let", "true", "false"}
  {
  }
}
