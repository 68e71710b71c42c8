/**
 * The lexeme table: the map from a lexeme's text to the reserved symbol it
 * denotes, filled once from the reserved-symbol registry. The lexeme strings
 * are the language's configured spellings ("var", "const", "Int", "+", "**", ...).
 */
module LexerTables {
  import opened Wrappers
  import opened Exceptions
  import opened Tokens
  import opened Symbols

  /** `get` on a table value: the value stored under exactly `key`, and null for a key never stored. */
  function Lookup(entries: map<string, Option<SymbolInfo>>, key: string): (r: Option<SymbolInfo>)
    ensures key !in entries ==> r.None?
    ensures key in entries ==> r == entries[key]
  {
    if key in entries then entries[key] else None
  }

  /**
   * The table after initialisation. The entries for "true", "false", "**" and
   * "==" hold null, because their registry lookups (BOOL_TRUE, BOOL_FALSE,
   * POW, EQ) miss.
   */
  const Contents: map<string, Option<SymbolInfo>> := map[
    "var" := Some(KeywordInfo(MUTABLE_ID_DECL)),
    "const" := Some(KeywordInfo(IMMUTABLE_ID_DECL)),
    "true" := None,
    "false" := None,
    "Int" := Some(TypeInfo(INT_TYPE_ID, 4)),
    "Float" := Some(TypeInfo(FLOAT_TYPE_ID, 4)),
    "Bool" := Some(TypeInfo(BOOL_TYPE_ID, 1)),
    "+" := Some(OperatorInfo(ADD, 0, true, BINARY)),
    "-" := Some(OperatorInfo(SUB, 0, true, BINARY)),
    "*" := Some(OperatorInfo(MULT, 1, true, BINARY)),
    "/" := Some(OperatorInfo(DIV, 1, true, BINARY)),
    "%" := Some(OperatorInfo(MOD, 1, true, BINARY)),
    "**" := None,
    "~" := Some(OperatorInfo(BITWISE_NOT, 1, true, UNARY)),
    "&" := Some(OperatorInfo(BITWISE_AND, 1, true, BINARY)),
    "|" := Some(OperatorInfo(BITWISE_OR, 1, true, BINARY)),
    "!" := Some(OperatorInfo(LOGICAL_NOT, 1, true, UNARY)),
    "&&" := Some(OperatorInfo(LOGICAL_AND, 1, true, BINARY)),
    "||" := Some(OperatorInfo(LOGICAL_OR, 1, true, BINARY)),
    "." := Some(OperatorInfo(DOT, 0, true, BINARY)),
    ":" := Some(OperatorInfo(COLON, 0, true, BINARY)),
    "(" := Some(OperatorInfo(LPAREN, 0, true, NONE)),
    ")" := Some(OperatorInfo(RPAREN, 0, true, NONE)),
    ";" := Some(OperatorInfo(SEMICOLON, 0, false, NONE)),
    "=" := Some(OperatorInfo(ASSIGNMENT, 0, false, BINARY)),
    "==" := None
  ]

  class LexerTable {
    var entries: map<string, Option<SymbolInfo>>

    /**
     * The singleton's one-time initialisation: each lexeme is stored with the
     * registry entry named after its token type.
     */
    constructor Init()
      ensures entries == Contents
    {
      entries := map[];
      new;
      SetWords();
      SetArithmeticOperators();
      SetBitwiseLogicalOperators();
      SetPunctuation();
    }

    /** The first half of the initialisation: keywords, boolean literals and type names. */
    method SetWords()
      modifies this
      ensures entries == old(entries)["var" := Some(KeywordInfo(MUTABLE_ID_DECL))]["const" := Some(KeywordInfo(IMMUTABLE_ID_DECL))]
        ["true" := None]["false" := None]["Int" := Some(TypeInfo(INT_TYPE_ID, 4))]["Float" := Some(TypeInfo(FLOAT_TYPE_ID, 4))]
        ["Bool" := Some(TypeInfo(BOOL_TYPE_ID, 1))]
    {
      RegistryKeywordLookups();
      RegistryTypeLookups();
      var mutableIdDecl := KeywordIn(Reserved, MUTABLE_ID_DECL).value;
      var immutableIdDecl := KeywordIn(Reserved, IMMUTABLE_ID_DECL).value;
      var boolTrue := KeywordIn(Reserved, BOOL_TRUE).value;
      var boolFalse := KeywordIn(Reserved, BOOL_FALSE).value;
      var intTypeId := TypeIn(Reserved, INT_TYPE_ID).value;
      var floatTypeId := TypeIn(Reserved, FLOAT_TYPE_ID).value;
      var boolTypeId := TypeIn(Reserved, BOOL_TYPE_ID).value;
      var previous := Set("var", mutableIdDecl);
      previous := Set("const", immutableIdDecl);
      previous := Set("true", boolTrue);
      previous := Set("false", boolFalse);
      previous := Set("Int", intTypeId);
      previous := Set("Float", floatTypeId);
      previous := Set("Bool", boolTypeId);
    }

    /** The second part of the initialisation: the arithmetic operators. */
    method SetArithmeticOperators()
      modifies this
      ensures entries == old(entries)["+" := Some(OperatorInfo(ADD, 0, true, BINARY))]["-" := Some(OperatorInfo(SUB, 0, true, BINARY))]["*" := Some(OperatorInfo(MULT, 1, true, BINARY))]["/" := Some(OperatorInfo(DIV, 1, true, BINARY))]["%" := Some(OperatorInfo(MOD, 1, true, BINARY))]["**" := None]
    {
      RegistryArithmeticOperatorsLookups();
      var add := OperatorIn(Reserved, ADD).value;
      var sub := OperatorIn(Reserved, SUB).value;
      var mult := OperatorIn(Reserved, MULT).value;
      var div := OperatorIn(Reserved, DIV).value;
      var mod := OperatorIn(Reserved, MOD).value;
      var pow := OperatorIn(Reserved, POW).value;
      var previous := Set("+", add);
      previous := Set("-", sub);
      previous := Set("*", mult);
      previous := Set("/", div);
      previous := Set("%", mod);
      previous := Set("**", pow);
    }

    /** The third part of the initialisation: the bitwise and logical operators. */
    method SetBitwiseLogicalOperators()
      modifies this
      ensures entries == old(entries)["~" := Some(OperatorInfo(BITWISE_NOT, 1, true, UNARY))]["&" := Some(OperatorInfo(BITWISE_AND, 1, true, BINARY))]["|" := Some(OperatorInfo(BITWISE_OR, 1, true, BINARY))]["!" := Some(OperatorInfo(LOGICAL_NOT, 1, true, UNARY))]["&&" := Some(OperatorInfo(LOGICAL_AND, 1, true, BINARY))]["||" := Some(OperatorInfo(LOGICAL_OR, 1, true, BINARY))]
    {
      RegistryBitwiseLogicalOperatorsLookups();
      var bitwiseNot := OperatorIn(Reserved, BITWISE_NOT).value;
      var bitwiseAnd := OperatorIn(Reserved, BITWISE_AND).value;
      var bitwiseOr := OperatorIn(Reserved, BITWISE_OR).value;
      var logicalNot := OperatorIn(Reserved, LOGICAL_NOT).value;
      var logicalAnd := OperatorIn(Reserved, LOGICAL_AND).value;
      var logicalOr := OperatorIn(Reserved, LOGICAL_OR).value;
      var previous := Set("~", bitwiseNot);
      previous := Set("&", bitwiseAnd);
      previous := Set("|", bitwiseOr);
      previous := Set("!", logicalNot);
      previous := Set("&&", logicalAnd);
      previous := Set("||", logicalOr);
    }

    /** The last part of the initialisation: punctuation, assignment and equality. */
    method SetPunctuation()
      modifies this
      ensures entries == old(entries)["." := Some(OperatorInfo(DOT, 0, true, BINARY))][":" := Some(OperatorInfo(COLON, 0, true, BINARY))]["(" := Some(OperatorInfo(LPAREN, 0, true, NONE))][")" := Some(OperatorInfo(RPAREN, 0, true, NONE))][";" := Some(OperatorInfo(SEMICOLON, 0, false, NONE))]["=" := Some(OperatorInfo(ASSIGNMENT, 0, false, BINARY))]["==" := None]
    {
      RegistryPunctuationLookups();
      var dot := OperatorIn(Reserved, DOT).value;
      var colon := OperatorIn(Reserved, COLON).value;
      var lparen := OperatorIn(Reserved, LPAREN).value;
      var rparen := OperatorIn(Reserved, RPAREN).value;
      var semicolon := OperatorIn(Reserved, SEMICOLON).value;
      var assignment := OperatorIn(Reserved, ASSIGNMENT).value;
      var eq := OperatorIn(Reserved, EQ).value;
      var previous := Set(".", dot);
      previous := Set(":", colon);
      previous := Set("(", lparen);
      previous := Set(")", rparen);
      previous := Set(";", semicolon);
      previous := Set("=", assignment);
      previous := Set("==", eq);
    }

    /** `set`: store `symbol` under `key`, replacing any earlier value; the earlier value comes back. */
    method Set(key: string, symbol: Option<SymbolInfo>) returns (previous: Option<SymbolInfo>)
      modifies this
      ensures entries == old(entries)[key := symbol]
      ensures previous == Lookup(old(entries), key)
    {
      previous := Lookup(entries, key);
      entries := entries[key := symbol];
    }

    /** `get`: the value last stored under exactly `key`, or null. */
    function Get(key: string): (r: Option<SymbolInfo>)
      reads this
      ensures r == Lookup(entries, key)
    {
      Lookup(entries, key)
    }
  }

  /** The registry entries the lexeme table stores for the keywords and boolean literals. */
  lemma RegistryKeywordLookups()
    ensures KeywordIn(Reserved, MUTABLE_ID_DECL) == Ok(Some(KeywordInfo(MUTABLE_ID_DECL)))
    ensures KeywordIn(Reserved, IMMUTABLE_ID_DECL) == Ok(Some(KeywordInfo(IMMUTABLE_ID_DECL)))
    ensures KeywordIn(Reserved, BOOL_TRUE) == Ok(None)
    ensures KeywordIn(Reserved, BOOL_FALSE) == Ok(None)
  {
  }

  /** The registry entries the lexeme table stores for the type names. */
  lemma RegistryTypeLookups()
    ensures TypeIn(Reserved, INT_TYPE_ID) == Ok(Some(TypeInfo(INT_TYPE_ID, 4)))
    ensures TypeIn(Reserved, FLOAT_TYPE_ID) == Ok(Some(TypeInfo(FLOAT_TYPE_ID, 4)))
    ensures TypeIn(Reserved, BOOL_TYPE_ID) == Ok(Some(TypeInfo(BOOL_TYPE_ID, 1)))
  {
  }

  /** The registry entries the lexeme table stores in `SetArithmeticOperators`. */
  lemma RegistryArithmeticOperatorsLookups()
    ensures OperatorIn(Reserved, ADD) == Ok(Some(OperatorInfo(ADD, 0, true, BINARY)))
    ensures OperatorIn(Reserved, SUB) == Ok(Some(OperatorInfo(SUB, 0, true, BINARY)))
    ensures OperatorIn(Reserved, MULT) == Ok(Some(OperatorInfo(MULT, 1, true, BINARY)))
    ensures OperatorIn(Reserved, DIV) == Ok(Some(OperatorInfo(DIV, 1, true, BINARY)))
    ensures OperatorIn(Reserved, MOD) == Ok(Some(OperatorInfo(MOD, 1, true, BINARY)))
    ensures OperatorIn(Reserved, POW) == Ok(None)
  {
  }

  /** The registry entries the lexeme table stores in `SetBitwiseLogicalOperators`. */
  lemma RegistryBitwiseLogicalOperatorsLookups()
    ensures OperatorIn(Reserved, BITWISE_NOT) == Ok(Some(OperatorInfo(BITWISE_NOT, 1, true, UNARY)))
    ensures OperatorIn(Reserved, BITWISE_AND) == Ok(Some(OperatorInfo(BITWISE_AND, 1, true, BINARY)))
    ensures OperatorIn(Reserved, BITWISE_OR) == Ok(Some(OperatorInfo(BITWISE_OR, 1, true, BINARY)))
    ensures OperatorIn(Reserved, LOGICAL_NOT) == Ok(Some(OperatorInfo(LOGICAL_NOT, 1, true, UNARY)))
    ensures OperatorIn(Reserved, LOGICAL_AND) == Ok(Some(OperatorInfo(LOGICAL_AND, 1, true, BINARY)))
    ensures OperatorIn(Reserved, LOGICAL_OR) == Ok(Some(OperatorInfo(LOGICAL_OR, 1, true, BINARY)))
  {
  }

  /** The registry entries the lexeme table stores in `SetPunctuation`. */
  lemma RegistryPunctuationLookups()
    ensures OperatorIn(Reserved, DOT) == Ok(Some(OperatorInfo(DOT, 0, true, BINARY)))
    ensures OperatorIn(Reserved, COLON) == Ok(Some(OperatorInfo(COLON, 0, true, BINARY)))
    ensures OperatorIn(Reserved, LPAREN) == Ok(Some(OperatorInfo(LPAREN, 0, true, NONE)))
    ensures OperatorIn(Reserved, RPAREN) == Ok(Some(OperatorInfo(RPAREN, 0, true, NONE)))
    ensures OperatorIn(Reserved, SEMICOLON) == Ok(Some(OperatorInfo(SEMICOLON, 0, false, NONE)))
    ensures OperatorIn(Reserved, ASSIGNMENT) == Ok(Some(OperatorInfo(ASSIGNMENT, 0, false, BINARY)))
    ensures OperatorIn(Reserved, EQ) == Ok(None)
  {
  }

  /** `get` returns the value of the last `set` under the same key and is blind to other keys. */
  lemma SetThenGet(entries: map<string, Option<SymbolInfo>>, key: string, symbol: Option<SymbolInfo>, other: string)
    ensures Lookup(entries[key := symbol], key) == symbol
    ensures other != key ==> Lookup(entries[key := symbol], other) == Lookup(entries, other)
  {
  }

  /** The lexemes stored with null are indistinguishable, through `get`, from strings never stored. */
  lemma NullEntriesLookUnknown()
    ensures Lookup(Contents, "true") == Lookup(Contents, "false") == None
    ensures Lookup(Contents, "**") == Lookup(Contents, "==") == None
    ensures "true" in Contents && "**" in Contents && "<" !in Contents && Lookup(Contents, "<") == None
  {
  }

  /** The lexemes with an operator entry, and their operators. */
  lemma OperatorLexemes(key: string)
    ensures Lookup(Contents, key).Some? && Lookup(Contents, key).value.OperatorInfo? <==>
      key in {"+", "-", "*", "/", "%", "~", "&", "|", "!", "&&", "||", ".", ":", "(", ")", ";", "="}
  {
  }

  /** The lexemes with a keyword or type entry: the declaration keywords and the three type names. */
  lemma WordLexemes(key: string)
    ensures Lookup(Contents, key).Some? && Lookup(Contents, key).value.KeywordInfo? <==> key in {"var", "const"}
    ensures Lookup(Contents, key).Some? && Lookup(Contents, key).value.TypeInfo? <==> key in {"Int", "Float", "Bool"}
  {
  }
}
