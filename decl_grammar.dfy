/**
 * The declaration grammar of `Parser.DeclParser` as functions of the token
 * stream, the scope and the lookahead position: the left-hand side
 * (`var`/`let`, a name, an optional type), the optional initializer, and
 * the type unification that follows. The scope is a value: registering the
 * name and back-patching its type give the scope the parse goes on with.
 */
module DeclGrammar {
  import opened Wrappers
  import opened Exceptions
  import opened Tokens
  import opened Types
  import opened Operators
  import opened Scopes
  import opened Nodes
  import opened BaseParsers
  import opened ExprGrammar

  /** The type annotation (null when absent or unknown) and the lookahead after it. */
  datatype TypeParsed = TypeParsed(declType: Option<TypeInfo>, pos: nat)

  /** The declaration node (null when the statement has no `var`/`let`), the scope with the name registered, the lookahead. */
  datatype LhsParsed = LhsParsed(decl: Option<Decl>, scope: Block, pos: nat)

  /** The statement root before analysis (null when there is none) and the lookahead after it. */
  datatype StmtParsed = StmtParsed(stmt: Option<Statement>, pos: nat)

  /** The statement root after type unification and the scope with the back-patched symbol. */
  datatype Analyzed = Analyzed(stmt: Option<Statement>, scope: Block)

  /** What `parseDecl` yields: the statement root, the scope afterwards and the lookahead. */
  datatype DeclParsed = DeclParsed(stmt: Option<Statement>, scope: Block, pos: nat)

  /** The symbol a declaration node stands for. */
  function SymbolOf(d: Decl): VarInfo {
    VarInfo(d.idTok.value, d.declType, d.mutable)
  }

  /** The declaration node at the left of a statement root, when it has one. */
  function DeclOf(stmt: Statement): Option<Decl> {
    match stmt
    case ExprStmt(_) => None
    case DeclStmt(d) => Some(d)
    case DefStmt(_, lhs, _, _) => lhs
  }

  /**
   * `parseType`: without ':' there is no type and nothing is consumed; ':'
   * must be followed by a type name, whose type is looked up in the type
   * table (null for a name the table does not have).
   */
  function TypeAnnotation(s: TokenStream, pos: nat): (r: Result<TypeParsed>)
    requires pos <= |s.tokens|
    ensures r.Ok? ==> pos <= r.value.pos <= |s.tokens|
    ensures Look(s, pos).tokenType != COLON ==> r == Ok(TypeParsed(None, pos))
    ensures r.Err? <==> Look(s, pos).tokenType == COLON && Look(s, pos + 1).tokenType != TYPE_ID
    ensures r.Ok? && Look(s, pos).tokenType == COLON ==>
      r.value.pos == pos + 2 && r.value.declType == TypeNamed(Look(s, pos + 1).value)
  {
    if Look(s, pos).tokenType != COLON then Ok(TypeParsed(None, pos))
    else
      var p := Next(s, pos);
      var tok := Look(s, p);
      var q := Next(s, p);
      if tok.tokenType != TYPE_ID then Err(SyntaxError(ExpectedType, LineAt(s, q)))
      else Ok(TypeParsed(TypeNamed(tok.value), q))
  }

  /**
   * `parseLhs`: `var` declares a variable and `let` a constant; then a name,
   * an optional type, and the name must not be visible yet. The symbol is
   * registered in the scope's own table before anything else is parsed.
   */
  function Lhs(s: TokenStream, scope: Block, pos: nat): (r: Result<LhsParsed>)
    requires pos <= |s.tokens|
    ensures r.Ok? ==> pos <= r.value.pos <= |s.tokens|
    ensures Look(s, pos).tokenType != VAR_DECL && Look(s, pos).tokenType != CONST_DECL ==>
      r == Ok(LhsParsed(None, scope, pos))
    ensures r.Ok? && r.value.decl.Some? ==>
      var d := r.value.decl.value;
      r.value.pos >= pos + 2 && d.idTok == Look(s, pos + 1) && d.idTok.tokenType == ID &&
      d.mutable == (Look(s, pos).tokenType == VAR_DECL) &&
      GetSymbol(scope, d.idTok.value).None? && r.value.scope == Register(scope, SymbolOf(d))
  {
    var head := Look(s, pos).tokenType;
    if head != VAR_DECL && head != CONST_DECL then Ok(LhsParsed(None, scope, pos))
    else
      var p := Next(s, pos);
      var idTok := Look(s, p);
      var q := Next(s, p);
      if idTok.tokenType != ID then Err(SyntaxError(ExpectedVariableName, LineAt(s, q)))
      else
        match TypeAnnotation(s, q)
        case Err(e) => Err(e)
        case Ok(t) =>
          if GetSymbol(scope, idTok.value).Some? then Err(SyntaxError(CannotRedeclare, LineAt(s, t.pos)))
          else
            var d := Decl(idTok, t.declType, head == VAR_DECL);
            Ok(LhsParsed(Some(d), Register(scope, SymbolOf(d)), t.pos))
  }

  /**
   * `parseAssignment`: without '=' a statement with no left-hand side is an
   * expression statement, and a declaration needs its type and a ';'; with
   * '=' a nonempty expression follows and the root is a DEF node.
   */
  function Assignment(s: TokenStream, scope: Block, pos: nat, lhs: Option<Decl>, compat: map<CompatKey, TypeInfo>): (r: Result<StmtParsed>)
    requires pos <= |s.tokens|
    ensures r.Ok? ==> pos <= r.value.pos <= |s.tokens|
    ensures r.Ok? && r.value.stmt.Some? ==> r.value.pos > pos
    ensures r.Ok? && lhs.Some? ==> r.value.stmt.Some? && DeclOf(r.value.stmt.value) == lhs
    ensures r.Ok? && r.value.stmt.Some? && r.value.stmt.value.DeclStmt? ==> lhs.Some? && lhs.value.declType.Some?
    ensures r.Ok? && r.value.stmt.Some? && r.value.stmt.value.DefStmt? ==>
      var d := r.value.stmt.value;
      d.assignTok == Look(s, pos) && d.assignTok.tokenType == ASSIGNMENT && d.lhs == lhs && d.defType.None?
    ensures r.Ok? && r.value.stmt.Some? && r.value.stmt.value.DefStmt? ==>
      pos < |s.tokens| && ParseExpr(s, scope, pos + 1, compat) == Ok(Parsed(Some(r.value.stmt.value.rhs), r.value.pos))
    ensures r.Ok? && r.value.stmt.Some? && r.value.stmt.value.DeclStmt? ==>
      Look(s, pos).tokenType == SEMICOLON && r.value.pos == pos + 1
    ensures pos < |s.tokens| && Look(s, pos).tokenType == ASSIGNMENT ==>
      var e := ParseExpr(s, scope, pos + 1, compat);
      e.Ok? && e.value.node.None? ==> r == Err(SyntaxError(ExpectedNonemptyExpr, LineAt(s, e.value.pos)))
    ensures Look(s, pos).tokenType != ASSIGNMENT && lhs.Some? && lhs.value.declType.None? ==>
      r == Err(SyntaxError(CannotDetermineType, LineAt(s, pos)))
    ensures Look(s, pos).tokenType !in {ASSIGNMENT, SEMICOLON} && lhs.Some? && lhs.value.declType.Some? ==>
      r == Err(SyntaxError(MissingSemicolon, LineAt(s, pos)))
    ensures Look(s, pos).tokenType != ASSIGNMENT && lhs.None? ==>
      var e := ParseExpr(s, scope, pos, compat);
      (r.Ok? <==> e.Ok?) &&
      (r.Ok? ==>
        r.value.pos == e.value.pos && (r.value.stmt.None? <==> e.value.node.None?) &&
        (r.value.stmt.Some? ==> r.value.stmt.value == ExprStmt(e.value.node.value)))
  {
    if Look(s, pos).tokenType != ASSIGNMENT then
      if lhs.None? then
        match ParseExpr(s, scope, pos, compat)
        case Err(e) => Err(e)
        case Ok(p) => Ok(StmtParsed(if p.node.Some? then Some(ExprStmt(p.node.value)) else None, p.pos))
      else if lhs.value.declType.None? then Err(SyntaxError(CannotDetermineType, LineAt(s, pos)))
      else if Look(s, pos).tokenType != SEMICOLON then Err(SyntaxError(MissingSemicolon, LineAt(s, pos)))
      else Ok(StmtParsed(Some(DeclStmt(lhs.value)), Next(s, pos)))
    else
      match ParseExpr(s, scope, Next(s, pos), compat)
      case Err(e) => Err(e)
      case Ok(p) =>
        if p.node.None? then Err(SyntaxError(ExpectedNonemptyExpr, LineAt(s, p.pos)))
        else Ok(StmtParsed(Some(DefStmt(Look(s, pos), lhs, p.node.value, None)), p.pos))
  }

  /**
   * `analyzeSemantics` of `DeclParser`: only a DEF root is checked. A missing
   * declared type is taken from the initializer, in the node and in the
   * symbol; a declared type must equal the initializer's. The root gets the
   * declaration's final type.
   */
  function AnalyzeDecl(stmt: Option<Statement>, scope: Block, line: int): (r: Result<Analyzed>)
    ensures stmt.None? || !stmt.value.DefStmt? ==> r == Ok(Analyzed(stmt, scope))
    ensures stmt.Some? && stmt.value.DefStmt? ==>
      var def := stmt.value;
      (r.Ok? <==>
        def.lhs.Some? && def.rhs.DataType().Some? &&
        (def.lhs.value.declType.Some? ==> def.lhs.value.declType == def.rhs.DataType()) &&
        (def.lhs.value.declType.None? ==> GetSymbol(scope, def.lhs.value.idTok.value).Some?))
    ensures r.Ok? && stmt.Some? && stmt.value.DefStmt? ==>
      var def := stmt.value;
      var d := r.value.stmt;
      d == Some(DefStmt(def.assignTok, Some(def.lhs.value.(declType := def.rhs.DataType())), def.rhs, def.rhs.DataType()))
  {
    if stmt.None? || !stmt.value.DefStmt? then Ok(Analyzed(stmt, scope))
    else
      var def := stmt.value;
      if def.lhs.None? then Err(NullPointer)
      else
        var lhsType := def.lhs.value.declType;
        var rhsType := def.rhs.DataType();
        if lhsType.None? then
          if rhsType.None? then Err(SyntaxError(CannotDetermineLhsType, line))
          else
            match SetSymbolType(scope, def.lhs.value.idTok.value, rhsType.value)
            case Err(e) => Err(e)
            case Ok(patched) =>
              Ok(Analyzed(Some(def.(lhs := Some(def.lhs.value.(declType := rhsType)), defType := rhsType)), patched))
        else if lhsType != rhsType then
          if rhsType.Some? then Err(SyntaxError(TypeMismatch, line)) else Err(SyntaxError(NoTypeOnRhs, line))
        else Ok(Analyzed(Some(def.(defType := lhsType)), scope))
  }

  /** `parseDecl`: the left-hand side, the assignment part, then the analysis, whose errors carry the line after the statement. */
  function ParseDecl(s: TokenStream, scope: Block, pos: nat, compat: map<CompatKey, TypeInfo>): (r: Result<DeclParsed>)
    requires pos <= |s.tokens|
    ensures r.Ok? ==> pos <= r.value.pos <= |s.tokens|
    ensures r.Ok? && r.value.stmt.Some? ==> r.value.pos > pos
  {
    match Lhs(s, scope, pos)
    case Err(e) => Err(e)
    case Ok(l) =>
      match Assignment(s, l.scope, l.pos, l.decl, compat)
      case Err(e) => Err(e)
      case Ok(a) =>
        match AnalyzeDecl(a.stmt, l.scope, LineAt(s, a.pos))
        case Err(e) => Err(e)
        case Ok(an) => Ok(DeclParsed(an.stmt, an.scope, a.pos))
  }

  /** A statement without `var`, `let` or a leading '=' is exactly an expression statement, and the scope is untouched. */
  lemma ExpressionStatement(s: TokenStream, scope: Block, pos: nat, compat: map<CompatKey, TypeInfo>)
    requires pos <= |s.tokens|
    requires Look(s, pos).tokenType !in {VAR_DECL, CONST_DECL, ASSIGNMENT}
    ensures ParseDecl(s, scope, pos, compat) ==
      match ParseExpr(s, scope, pos, compat)
      case Err(e) => Err(e)
      case Ok(p) => Ok(DeclParsed(if p.node.Some? then Some(ExprStmt(p.node.value)) else None, scope, p.pos))
  {
  }

  /** A '=' with nothing declared before it reaches the analysis with a null left-hand side, which fails on the dereference. */
  lemma AssignmentWithoutDeclaration(s: TokenStream, scope: Block, pos: nat, compat: map<CompatKey, TypeInfo>)
    requires pos < |s.tokens| && Look(s, pos).tokenType == ASSIGNMENT
    requires ParseExpr(s, scope, pos + 1, compat).Ok? && ParseExpr(s, scope, pos + 1, compat).value.node.Some?
    ensures ParseDecl(s, scope, pos, compat) == Err(NullPointer)
  {
  }

  /** A name visible in the scope, in its own table or an enclosing one, cannot be declared again. */
  lemma RedeclarationRejected(s: TokenStream, scope: Block, pos: nat, compat: map<CompatKey, TypeInfo>)
    requires pos + 1 < |s.tokens|
    requires Look(s, pos).tokenType in {VAR_DECL, CONST_DECL} && Look(s, pos + 1).tokenType == ID
    requires GetSymbol(scope, Look(s, pos + 1).value).Some?
    requires TypeAnnotation(s, pos + 2).Ok?
    ensures ParseDecl(s, scope, pos, compat) == Err(SyntaxError(CannotRedeclare, LineAt(s, TypeAnnotation(s, pos + 2).value.pos)))
  {
  }

  /** A declaration with neither a type nor an initializer has no type to give the symbol. */
  lemma UntypedWithoutInitializer(s: TokenStream, scope: Block, pos: nat, compat: map<CompatKey, TypeInfo>)
    requires pos <= |s.tokens|
    requires Lhs(s, scope, pos).Ok? && Lhs(s, scope, pos).value.decl.Some?
    requires Lhs(s, scope, pos).value.decl.value.declType.None?
    requires Look(s, Lhs(s, scope, pos).value.pos).tokenType != ASSIGNMENT
    ensures ParseDecl(s, scope, pos, compat) == Err(SyntaxError(CannotDetermineType, LineAt(s, Lhs(s, scope, pos).value.pos)))
  {
  }

  /**
   * A declaration only adds to the scope's own table: the enclosing scopes
   * are untouched and every name visible before resolves to the same symbol
   * afterwards (the one name it adds was not visible, and only that name's
   * type is back-patched).
   */
  lemma {:induction false} DeclKeepsVisibleSymbols(s: TokenStream, scope: Block, pos: nat, compat: map<CompatKey, TypeInfo>)
    requires pos <= |s.tokens|
    requires ParseDecl(s, scope, pos, compat).Ok?
    ensures var after := ParseDecl(s, scope, pos, compat).value.scope;
      after.parent == scope.parent &&
      forall id | GetSymbol(scope, id).Some? :: GetSymbol(after, id) == GetSymbol(scope, id)
  {
    var l := Lhs(s, scope, pos).value;
    var a := Assignment(s, l.scope, l.pos, l.decl, compat).value;
    if l.decl.Some? {
      AnalysisRetypesOnly(a.stmt.value, l.decl.value, l.scope, LineAt(s, a.pos));
    }
  }

  /** The analysis changes the scope only by retyping the declared name, which sits in the scope's own table. */
  lemma AnalysisRetypesOnly(stmt: Statement, d: Decl, scope: Block, line: int)
    requires DeclOf(stmt) == Some(d) && d.idTok.value in scope.table
    requires AnalyzeDecl(Some(stmt), scope, line).Ok?
    ensures var after := AnalyzeDecl(Some(stmt), scope, line).value.scope;
      after.parent == scope.parent &&
      forall id | id != d.idTok.value :: GetSymbol(after, id) == GetSymbol(scope, id)
  {
  }

  /**
   * The declared name is bound to exactly the declaration node's symbol, and
   * the node has a type: the declared one, or else the initializer's. A DEF
   * root carries that same type, which is also the initializer's.
   */
  lemma {:induction false} DeclBindsName(s: TokenStream, scope: Block, pos: nat, compat: map<CompatKey, TypeInfo>)
    requires pos <= |s.tokens|
    requires ParseDecl(s, scope, pos, compat).Ok?
    requires ParseDecl(s, scope, pos, compat).value.stmt.Some?
    requires DeclOf(ParseDecl(s, scope, pos, compat).value.stmt.value).Some?
    ensures var r := ParseDecl(s, scope, pos, compat).value;
      var stmt := r.stmt.value;
      var d := DeclOf(stmt).value;
      Look(s, pos).tokenType in {VAR_DECL, CONST_DECL} && d.idTok == Look(s, pos + 1) &&
      d.mutable == (Look(s, pos).tokenType == VAR_DECL) &&
      GetSymbol(scope, d.idTok.value).None? &&
      GetSymbol(r.scope, d.idTok.value) == Some(SymbolOf(d)) && d.declType.Some? &&
      (stmt.DefStmt? ==> stmt.defType == d.declType == stmt.rhs.DataType())
  {
    var l := Lhs(s, scope, pos).value;
    var a := Assignment(s, l.scope, l.pos, l.decl, compat).value;
    assert l.decl.Some?;
    var d0 := l.decl.value;
    if a.stmt.value.DefStmt? {
      var t := a.stmt.value.rhs.DataType();
      if d0.declType.None? {
        assert SetSymbolType(l.scope, d0.idTok.value, t.value).Ok?;
        assert SymbolOf(d0.(declType := t)) == SymbolOf(d0).(dataType := t);
      }
    }
  }

  /** `var x: T;` or `let x: T;` with a known type T and a fresh name: a DECL node, and the name registered with that type. */
  lemma TypedDeclarationShape(s: TokenStream, scope: Block, pos: nat, compat: map<CompatKey, TypeInfo>)
    requires pos + 4 < |s.tokens|
    requires Look(s, pos).tokenType in {VAR_DECL, CONST_DECL} && Look(s, pos + 1).tokenType == ID
    requires Look(s, pos + 2).tokenType == COLON && Look(s, pos + 3).tokenType == TYPE_ID
    requires Look(s, pos + 4).tokenType == SEMICOLON
    requires GetSymbol(scope, Look(s, pos + 1).value).None? && TypeNamed(Look(s, pos + 3).value).Some?
    ensures var d := Decl(Look(s, pos + 1), TypeNamed(Look(s, pos + 3).value), Look(s, pos).tokenType == VAR_DECL);
      ParseDecl(s, scope, pos, compat) == Ok(DeclParsed(Some(DeclStmt(d)), Register(scope, SymbolOf(d)), pos + 5))
  {
    var d := Decl(Look(s, pos + 1), TypeNamed(Look(s, pos + 3).value), Look(s, pos).tokenType == VAR_DECL);
    assert Lhs(s, scope, pos) == Ok(LhsParsed(Some(d), Register(scope, SymbolOf(d)), pos + 4));
  }

  /** `var a: int;`: a DECL node named `a`, of type int (size 4), mutable, and `a` registered with that type. */
  lemma TypedDeclaration(s: TokenStream, line: int, scope: Block, compat: map<CompatKey, TypeInfo>)
    requires s.tokens == [Token("var", VAR_DECL, line), Token("a", ID, line), Token(":", COLON, line),
                          Token("int", TYPE_ID, line), Token(";", SEMICOLON, line)]
    requires GetSymbol(scope, "a").None?
    ensures var d := Decl(Token("a", ID, line), Some(IntType), true);
      ParseDecl(s, scope, 0, compat) == Ok(DeclParsed(Some(DeclStmt(d)), Register(scope, VarInfo("a", Some(IntType), true)), 5)) &&
      DeclStmt(d).NodeTypeOf() == DECL && d.declType.value.id == "int" && d.declType.value.size == 4
  {
    assert TypeNamed("int") == Some(IntType);
    TypedDeclarationShape(s, scope, 0, compat);
  }
}
