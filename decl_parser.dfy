/**
 * `Parser.DeclParser` as the Java code runs it: methods that consume from the
 * shared token cursor and hand back the statement root and the scope with
 * the declared name registered. Each method is proved to do what the
 * declaration grammar function of the same name says.
 */
module DeclParsers {
  import opened Wrappers
  import opened Exceptions
  import opened Tokens
  import opened Types
  import opened Operators
  import opened Scopes
  import opened Nodes
  import opened BaseParsers
  import opened ExprGrammar
  import opened ExprParsers
  import opened DeclGrammar

  class DeclParser {
    const lexer: TokenCursor
    /** The expression parser over the same cursor, for bare expressions and initializers. */
    const exprParser: ExprParser

    constructor (lexer: TokenCursor, exprParser: ExprParser)
      requires exprParser.lexer == lexer
      ensures this.lexer == lexer && this.exprParser == exprParser
    {
      this.lexer := lexer;
      this.exprParser := exprParser;
    }

    /** `parseDecl`: the left-hand side, the assignment part and the type unification, in that order. */
    method ParseDecl(scope: Block) returns (r: Result<Option<Statement>>, after: Block)
      requires lexer.Valid() && exprParser.lexer == lexer
      modifies lexer
      ensures lexer.Valid()
      ensures match DeclGrammar.ParseDecl(lexer.stream, scope, old(lexer.pos), exprParser.compat)
        case Ok(d) => r == Ok(d.stmt) && after == d.scope && lexer.pos == d.pos
        case Err(e) => r == Err(e)
    {
      var lhs, registered := ParseLhs(scope);
      if lhs.Err? {
        return Err(lhs.error), scope;
      }
      var root := ParseAssignment(lhs.value, registered);
      if root.Err? {
        return Err(root.error), scope;
      }
      var analyzed := AnalyzeDecl(root.value, registered, lexer.CurrLine());
      if analyzed.Err? {
        return Err(analyzed.error), scope;
      }
      return Ok(analyzed.value.stmt), analyzed.value.scope;
    }

    /** `parseLhs`: `var` or `let`, a name, an optional type; the name is registered in the scope's own table. */
    method ParseLhs(scope: Block) returns (r: Result<Option<Decl>>, after: Block)
      requires lexer.Valid()
      modifies lexer
      ensures lexer.Valid()
      ensures match Lhs(lexer.stream, scope, old(lexer.pos))
        case Ok(l) => r == Ok(l.decl) && after == l.scope && lexer.pos == l.pos
        case Err(e) => r == Err(e)
    {
      var mutable: bool;
      var head := ParseTok(lexer, VAR_DECL);
      if head.None? {
        head := ParseTok(lexer, CONST_DECL);
        if head.None? {
          return Ok(None), scope;
        }
        mutable := false;
      } else {
        mutable := true;
      }
      var idTok := lexer.Consume();
      if idTok.tokenType != ID {
        return Err(SyntaxError(ExpectedVariableName, lexer.CurrLine())), scope;
      }
      var dataType := ParseType();
      if dataType.Err? {
        return Err(dataType.error), scope;
      }
      if GetSymbol(scope, idTok.value).Some? {
        return Err(SyntaxError(CannotRedeclare, lexer.CurrLine())), scope;
      }
      var d := Decl(idTok, dataType.value, mutable);
      return Ok(Some(d)), Register(scope, SymbolOf(d));
    }

    /** `parseType`: an optional ':' and type name; the type table's type for that name. */
    method ParseType() returns (r: Result<Option<TypeInfo>>)
      requires lexer.Valid()
      modifies lexer
      ensures lexer.Valid()
      ensures match TypeAnnotation(lexer.stream, old(lexer.pos))
        case Ok(t) => r == Ok(t.declType) && lexer.pos == t.pos
        case Err(e) => r == Err(e)
    {
      var colon := ParseTok(lexer, COLON);
      if colon.None? {
        return Ok(None);
      }
      var token := lexer.Consume();
      if token.tokenType != TYPE_ID {
        return Err(SyntaxError(ExpectedType, lexer.CurrLine()));
      }
      return Ok(TypeNamed(token.value));
    }

    /** `parseAssignment`: an expression statement, a terminated declaration, or a DEF root over the initializer. */
    method ParseAssignment(lhs: Option<Decl>, scope: Block) returns (r: Result<Option<Statement>>)
      requires lexer.Valid() && exprParser.lexer == lexer
      modifies lexer
      ensures lexer.Valid()
      ensures match Assignment(lexer.stream, scope, old(lexer.pos), lhs, exprParser.compat)
        case Ok(a) => r == Ok(a.stmt) && lexer.pos == a.pos
        case Err(e) => r == Err(e)
    {
      var assignmentToken := ParseTok(lexer, ASSIGNMENT);
      if assignmentToken.None? {
        if lhs.None? {
          var e := exprParser.ParseExpr(scope);
          if e.Err? {
            return Err(e.error);
          }
          return Ok(if e.value.Some? then Some(ExprStmt(e.value.value)) else None);
        } else if lhs.value.declType.None? {
          return Err(SyntaxError(CannotDetermineType, lexer.CurrLine()));
        }
        var semicolon := ParseTok(lexer, SEMICOLON);
        if semicolon.None? {
          return Err(SyntaxError(MissingSemicolon, lexer.CurrLine()));
        }
        return Ok(Some(DeclStmt(lhs.value)));
      }
      var exprNode := exprParser.ParseExpr(scope);
      if exprNode.Err? {
        return Err(exprNode.error);
      }
      if exprNode.value.None? {
        return Err(SyntaxError(ExpectedNonemptyExpr, lexer.CurrLine()));
      }
      return Ok(Some(DefStmt(assignmentToken.value, lhs, exprNode.value.value, None)));
    }
  }
}
