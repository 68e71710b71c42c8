/**
 * `Parser.ScopeParser` and `Parser.BlockParser` as the Java code runs them:
 * the scope parser's `while (!endFlag)` loop appends to a fresh scope node,
 * and the block parser consumes the braces around a nested scope. The two
 * parsers refer to each other: the block parser builds its scope parser and
 * hands it itself. `StatementParser.parseStatement` is the declaration
 * parser's `parseDecl`, which is called directly.
 */
module ScopeParsers {
  import opened Wrappers
  import opened Exceptions
  import opened Tokens
  import opened Types
  import opened Operators
  import opened Scopes
  import opened Nodes
  import opened BaseParsers
  import opened ExprParsers
  import opened DeclGrammar
  import opened DeclParsers
  import opened ScopeGrammar

  class ScopeParser {
    const lexer: TokenCursor
    /** The statement parser. */
    const stmParser: DeclParser
    /** The block parser this scope parser belongs to; set once that block parser is built. */
    var blockParser: BlockParser?

    /** Both parsers share one cursor, and this scope parser and its block parser point at each other. */
    ghost predicate Valid()
      reads this
    {
      blockParser != null && blockParser.scopeParser == this && blockParser.lexer == lexer &&
      stmParser.lexer == lexer && stmParser.exprParser.lexer == lexer
    }

    /** The operator compatibility table the expression analysis consults. */
    function Compat(): map<CompatKey, TypeInfo> {
      stmParser.exprParser.compat
    }

    constructor (lexer: TokenCursor, stmParser: DeclParser, blockParser: BlockParser?)
      ensures this.lexer == lexer && this.stmParser == stmParser && this.blockParser == blockParser
    {
      this.lexer := lexer;
      this.stmParser := stmParser;
      this.blockParser := blockParser;
    }

    /**
     * `parseScope`: statements and blocks until neither is there, empty
     * statements and empty blocks left out; null when nothing was collected.
     * Declarations register into `scope`, which comes back as `after`.
     */
    method ParseScope(scope: Block) returns (r: Result<Option<ScopeNode>>, after: Block)
      requires Valid() && lexer.Valid()
      modifies lexer
      decreases |lexer.stream.tokens| - lexer.pos, 1
      ensures lexer.Valid()
      ensures match ScopeGrammar.ParseScope(lexer.stream, scope, old(lexer.pos), Compat())
        case Ok(p) =>
          r.Ok? && lexer.pos == p.pos && after == p.scope && (r.value.None? <==> p.node.None?) &&
          (r.value.Some? ==> fresh(r.value.value) && r.value.value.children == p.node.value)
        case Err(e) => r == Err(e)
    {
      ghost var s, start := lexer.stream, lexer.pos;
      ghost var compat := Compat();
      ghost var spec := ScopeLoop(s, scope, start, compat, []);
      var scopeRoot := new ScopeNode();
      var current := scope;
      var endFlag := false;
      while !endFlag
        invariant lexer.Valid() && start <= lexer.pos
        invariant fresh(scopeRoot)
        invariant !endFlag ==> spec == ScopeLoop(s, current, lexer.pos, compat, scopeRoot.children)
        invariant endFlag ==> spec == Ok(ScopeParsed(scopeRoot.children, current, lexer.pos))
        decreases !endFlag, |s.tokens| - lexer.pos
        modifies lexer, scopeRoot
      {
        ghost var here, acc := lexer.pos, scopeRoot.children;
        var stmRoot, registered := stmParser.ParseDecl(current);
        if stmRoot.Err? {
          return Err(stmRoot.error), scope;
        }
        ghost var d := DeclGrammar.ParseDecl(s, current, here, compat).value;
        assert d == DeclParsed(stmRoot.value, registered, lexer.pos);
        current := registered;
        endFlag := stmRoot.value.None?;
        if !endFlag {
          if stmRoot.value.value.NodeTypeOf() != EMPTY {
            scopeRoot.AddChild(Stmt(stmRoot.value.value));
          }
          assert spec == ScopeLoop(s, current, lexer.pos, compat, scopeRoot.children);
        } else {
          assert spec == BlockStep(s, current, lexer.pos, compat, acc);
          var blockRoot := blockParser.ParseBlock(current);
          if blockRoot.Err? {
            return Err(blockRoot.error), scope;
          }
          endFlag := blockRoot.value.None?;
          if !endFlag && blockRoot.value.value.CountChildren() > 0 {
            scopeRoot.AddChild(Nested(blockRoot.value.value.children));
          }
        }
      }
      if scopeRoot.CountChildren() == 0 {
        return Ok(None), current;
      }
      return Ok(Some(scopeRoot)), current;
    }
  }

  class BlockParser {
    const lexer: TokenCursor
    const scopeParser: ScopeParser

    /** The scope parser this block parser built points back at it, over the same cursor. */
    ghost predicate Valid()
      reads this, scopeParser
    {
      scopeParser.blockParser == this && scopeParser.lexer == lexer && scopeParser.Valid()
    }

    /** The constructor builds its scope parser with the same statement parser and itself as that parser's block parser. */
    constructor (lexer: TokenCursor, stmParser: DeclParser)
      requires stmParser.lexer == lexer && stmParser.exprParser.lexer == lexer
      ensures this.lexer == lexer && scopeParser.stmParser == stmParser && Valid()
    {
      this.lexer := lexer;
      var sp := new ScopeParser(lexer, stmParser, null);
      scopeParser := sp;
      new;
      sp.blockParser := this;
    }

    /**
     * `parseBlock`: without '{' null and nothing consumed; otherwise the body
     * is parsed in a new scope whose parent is `scope`, and '}' must follow.
     * The result is the body's scope node, null for an empty body.
     */
    method ParseBlock(scope: Block) returns (r: Result<Option<ScopeNode>>)
      requires Valid() && lexer.Valid()
      modifies lexer
      decreases |lexer.stream.tokens| - lexer.pos, 0
      ensures lexer.Valid()
      ensures match ScopeGrammar.ParseBlock(lexer.stream, scope, old(lexer.pos), scopeParser.Compat())
        case Ok(b) =>
          r.Ok? && lexer.pos == b.pos && (r.value.None? <==> b.node.None?) &&
          (r.value.Some? ==> fresh(r.value.value) && r.value.value.children == b.node.value)
        case Err(e) => r == Err(e)
    {
      var newScope := NewBlock(Some(scope));
      var lbrace := ParseTok(lexer, LBRACKETS);
      if lbrace.None? {
        return Ok(None);
      }
      var root, _ := scopeParser.ParseScope(newScope);
      if root.Err? {
        return Err(root.error);
      }
      var rbrace := ParseTok(lexer, RBRACKETS);
      if rbrace.None? {
        return Err(SyntaxError(MissingRBrace, lexer.CurrLine()));
      }
      return root;
    }
  }
}
