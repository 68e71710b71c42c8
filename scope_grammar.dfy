/**
 * The scope and block grammar of `Parser.ScopeParser` and
 * `Parser.BlockParser` as functions of the token stream: a scope is a run of
 * statements and blocks, each iteration trying a statement first and a block
 * only when there is no statement, until neither is there. A block is a
 * scope in braces, parsed in a child scope of the caller's.
 */
module ScopeGrammar {
  import opened Wrappers
  import opened Exceptions
  import opened Tokens
  import opened Types
  import opened Operators
  import opened Scopes
  import opened Nodes
  import opened BaseParsers
  import opened ExprGrammar
  import opened DeclGrammar
  import opened ExprExamples

  /** The children collected so far, the scope the statements registered into, and the lookahead. */
  datatype ScopeParsed = ScopeParsed(children: seq<Component>, scope: Block, pos: nat)

  /** A parsed scope or block: its scope node's children, null when there are none, and the lookahead. */
  datatype Scoped = Scoped(node: Option<seq<Component>>, scope: Block, pos: nat)

  /** The EMPTY statement of a lone ';'. */
  const EmptyStmt := Stmt(ExprStmt(Empty))

  /** What a scope node may hold: no EMPTY statement and no nested block without children. */
  predicate Collected(children: seq<Component>) {
    forall i | 0 <= i < |children| :: children[i] != EmptyStmt && (children[i].Nested? ==> children[i].children != [])
  }

  /**
   * The `while (!endFlag)` loop of `parseScope` from the lookahead `pos`, with
   * `acc` collected so far: a statement that is not EMPTY is appended and the
   * loop goes on; with no statement, a block is tried.
   */
  function ScopeLoop(s: TokenStream, scope: Block, pos: nat, compat: map<CompatKey, TypeInfo>, acc: seq<Component>): (r: Result<ScopeParsed>)
    requires pos <= |s.tokens|
    decreases |s.tokens| - pos, 2
    ensures r.Ok? ==> pos <= r.value.pos <= |s.tokens|
  {
    match DeclGrammar.ParseDecl(s, scope, pos, compat)
    case Err(e) => Err(e)
    case Ok(d) =>
      if d.stmt.Some? then
        ScopeLoop(s, d.scope, d.pos, compat, if d.stmt.value.NodeTypeOf() == EMPTY then acc else acc + [Stmt(d.stmt.value)])
      else
        BlockStep(s, d.scope, d.pos, compat, acc)
  }

  /** The rest of an iteration without a statement: a block with children is appended and the loop goes on; no block ends it. */
  function BlockStep(s: TokenStream, scope: Block, pos: nat, compat: map<CompatKey, TypeInfo>, acc: seq<Component>): (r: Result<ScopeParsed>)
    requires pos <= |s.tokens|
    decreases |s.tokens| - pos, 1
    ensures r.Ok? ==> pos <= r.value.pos <= |s.tokens|
    ensures var b := ParseBlock(s, scope, pos, compat);
      (b.Err? ==> r == Err(b.error)) &&
      (b.Ok? && b.value.node.None? ==> r == Ok(ScopeParsed(acc, scope, b.value.pos))) &&
      (b.Ok? && b.value.node.Some? ==> b.value.pos > pos && r == ScopeLoop(s, scope, b.value.pos, compat, acc + [Nested(b.value.node.value)]))
  {
    match ParseBlock(s, scope, pos, compat)
    case Err(e) => Err(e)
    case Ok(b) =>
      if b.node.None? then Ok(ScopeParsed(acc, scope, b.pos))
      else ScopeLoop(s, scope, b.pos, compat, if |b.node.value| > 0 then acc + [Nested(b.node.value)] else acc)
  }

  /** `parseScope`: the loop from an empty child list; the node is null when nothing was collected. */
  function ParseScope(s: TokenStream, scope: Block, pos: nat, compat: map<CompatKey, TypeInfo>): (r: Result<Scoped>)
    requires pos <= |s.tokens|
    decreases |s.tokens| - pos, 3
    ensures r.Ok? ==> pos <= r.value.pos <= |s.tokens|
    ensures r.Ok? && r.value.node.Some? ==> r.value.node.value != []
    ensures var l := ScopeLoop(s, scope, pos, compat, []);
      (r.Ok? <==> l.Ok?) &&
      (r.Ok? ==>
        r.value.scope == l.value.scope && r.value.pos == l.value.pos &&
        (r.value.node.None? <==> l.value.children == []) &&
        (r.value.node.Some? ==> r.value.node.value == l.value.children))
  {
    match ScopeLoop(s, scope, pos, compat, [])
    case Err(e) => Err(e)
    case Ok(p) => Ok(Scoped(if p.children == [] then None else Some(p.children), p.scope, p.pos))
  }

  /**
   * `parseBlock`: without '{' nothing is consumed and the result is null;
   * otherwise the body is parsed in a new scope whose parent is the caller's
   * and must be followed by '}'. The result is the body's node, null for an
   * empty body, and the caller's scope is not changed.
   */
  function ParseBlock(s: TokenStream, scope: Block, pos: nat, compat: map<CompatKey, TypeInfo>): (r: Result<Scoped>)
    requires pos <= |s.tokens|
    decreases |s.tokens| - pos, 0
    ensures r.Ok? ==> pos <= r.value.pos <= |s.tokens| && r.value.scope == scope
    ensures Look(s, pos).tokenType != LBRACKETS ==> r == Ok(Scoped(None, scope, pos))
    ensures r.Ok? && Look(s, pos).tokenType == LBRACKETS ==> r.value.pos > pos
    ensures r.Ok? && r.value.node.Some? ==> r.value.node.value != []
  {
    if Look(s, pos).tokenType != LBRACKETS then Ok(Scoped(None, scope, pos))
    else
      match ParseScope(s, NewBlock(Some(scope)), Next(s, pos), compat)
      case Err(e) => Err(e)
      case Ok(body) =>
        if Look(s, body.pos).tokenType != RBRACKETS then Err(SyntaxError(MissingRBrace, LineAt(s, body.pos)))
        else Ok(Scoped(body.node, scope, Next(s, body.pos)))
  }

  /** Appending a child that is not the EMPTY statement and not a childless block keeps a scope node's shape. */
  lemma CollectedAppend(acc: seq<Component>, c: Component)
    requires Collected(acc) && c != EmptyStmt && (c.Nested? ==> c.children != [])
    ensures Collected(acc + [c])
  {
    assert forall i | 0 <= i < |acc| :: (acc + [c])[i] == acc[i];
  }

  /**
   * The loop keeps a scope node's shape: what was collected stays a
   * prefix, no EMPTY statement is added and no block without children.
   */
  lemma {:induction false} ScopeLoopCollects(s: TokenStream, scope: Block, pos: nat, compat: map<CompatKey, TypeInfo>, acc: seq<Component>)
    requires pos <= |s.tokens| && Collected(acc)
    requires ScopeLoop(s, scope, pos, compat, acc).Ok?
    decreases |s.tokens| - pos, 1
    ensures var c := ScopeLoop(s, scope, pos, compat, acc).value.children;
      acc <= c && Collected(c)
  {
    var d := DeclGrammar.ParseDecl(s, scope, pos, compat).value;
    if d.stmt.None? {
      BlockStepCollects(s, d.scope, d.pos, compat, acc);
    } else if d.stmt.value.NodeTypeOf() == EMPTY {
      ScopeLoopCollects(s, d.scope, d.pos, compat, acc);
    } else {
      CollectedAppend(acc, Stmt(d.stmt.value));
      ScopeLoopCollects(s, d.scope, d.pos, compat, acc + [Stmt(d.stmt.value)]);
    }
  }

  /** The block step keeps the shape too: a block is appended only when it has children. */
  lemma {:induction false} BlockStepCollects(s: TokenStream, scope: Block, pos: nat, compat: map<CompatKey, TypeInfo>, acc: seq<Component>)
    requires pos <= |s.tokens| && Collected(acc)
    requires BlockStep(s, scope, pos, compat, acc).Ok?
    decreases |s.tokens| - pos, 0
    ensures var c := BlockStep(s, scope, pos, compat, acc).value.children;
      acc <= c && Collected(c)
  {
    var b := ParseBlock(s, scope, pos, compat).value;
    if b.node.Some? {
      CollectedAppend(acc, Nested(b.node.value));
      ScopeLoopCollects(s, scope, b.pos, compat, acc + [Nested(b.node.value)]);
    }
  }

  /** A loop result with `acc` in front of its children; an error stays as it is. */
  function Behind(acc: seq<Component>, r: Result<ScopeParsed>): Result<ScopeParsed> {
    match r
    case Err(e) => Err(e)
    case Ok(p) => Ok(p.(children := acc + p.children))
  }

  /** The children of a scope node, none for a null one. */
  function ChildrenOf(node: Option<seq<Component>>): seq<Component> {
    if node.None? then [] else node.value
  }

  /**
   * The loop only appends: run with `acc` already collected, it ends where it
   * ends from nothing, with the same scope, and its children are `acc`
   * followed by what it collects from nothing. An error is the same error.
   */
  lemma {:induction false} ScopeLoopAppends(s: TokenStream, scope: Block, pos: nat, compat: map<CompatKey, TypeInfo>, acc: seq<Component>)
    requires pos <= |s.tokens|
    decreases |s.tokens| - pos, 1
    ensures ScopeLoop(s, scope, pos, compat, acc) == Behind(acc, ScopeLoop(s, scope, pos, compat, []))
  {
    var d := DeclGrammar.ParseDecl(s, scope, pos, compat);
    if d.Ok? {
      var st := d.value.stmt;
      if st.None? {
        BlockStepAppends(s, d.value.scope, d.value.pos, compat, acc);
      } else if st.value.NodeTypeOf() == EMPTY {
        ScopeLoopAppends(s, d.value.scope, d.value.pos, compat, acc);
        ScopeLoopAppends(s, d.value.scope, d.value.pos, compat, []);
      } else {
        var c := Stmt(st.value);
        ScopeLoopAppends(s, d.value.scope, d.value.pos, compat, acc + [c]);
        ScopeLoopAppends(s, d.value.scope, d.value.pos, compat, [c]);
        assert [] + [c] == [c];
        BehindBehind(acc, [c], ScopeLoop(s, d.value.scope, d.value.pos, compat, []));
      }
    }
  }

  /** The block step only appends, in the same sense. */
  lemma {:induction false} BlockStepAppends(s: TokenStream, scope: Block, pos: nat, compat: map<CompatKey, TypeInfo>, acc: seq<Component>)
    requires pos <= |s.tokens|
    decreases |s.tokens| - pos, 0
    ensures BlockStep(s, scope, pos, compat, acc) == Behind(acc, BlockStep(s, scope, pos, compat, []))
  {
    var b := ParseBlock(s, scope, pos, compat);
    if b.Ok? {
      if b.value.node.None? {
        assert acc + [] == acc;
      } else {
        var c := Nested(b.value.node.value);
        ScopeLoopAppends(s, scope, b.value.pos, compat, acc + [c]);
        ScopeLoopAppends(s, scope, b.value.pos, compat, [c]);
        assert [] + [c] == [c];
        BehindBehind(acc, [c], ScopeLoop(s, scope, b.value.pos, compat, []));
      }
    }
  }

  lemma BehindBehind(a: seq<Component>, b: seq<Component>, r: Result<ScopeParsed>)
    ensures Behind(a + b, r) == Behind(a, Behind(b, r))
  {
    if r.Ok? {
      assert (a + b) + r.value.children == a + (b + r.value.children);
    }
  }

  /** An iteration that parses a statement other than EMPTY appends it and goes on after it. */
  lemma StatementAppended(s: TokenStream, scope: Block, pos: nat, compat: map<CompatKey, TypeInfo>, acc: seq<Component>, d: DeclParsed)
    requires pos <= |s.tokens|
    requires DeclGrammar.ParseDecl(s, scope, pos, compat) == Ok(d)
    requires d.stmt.Some? && d.stmt.value.NodeTypeOf() != EMPTY
    ensures d.pos > pos
    ensures ScopeLoop(s, scope, pos, compat, acc) == ScopeLoop(s, d.scope, d.pos, compat, acc + [Stmt(d.stmt.value)])
  {
  }

  /** An iteration with no statement but a block with children appends the block and goes on after its '}'. */
  lemma BlockAppended(s: TokenStream, scope: Block, pos: nat, compat: map<CompatKey, TypeInfo>, acc: seq<Component>, after: Block, p: nat, b: Scoped)
    requires pos <= |s.tokens|
    requires DeclGrammar.ParseDecl(s, scope, pos, compat) == Ok(DeclParsed(None, after, p))
    requires ParseBlock(s, after, p, compat) == Ok(b) && b.node.Some?
    ensures b.pos > p >= pos
    ensures ScopeLoop(s, scope, pos, compat, acc) == ScopeLoop(s, after, b.pos, compat, acc + [Nested(b.node.value)])
  {
  }

  /** An iteration with neither a statement nor a block ends the loop with what was collected. */
  lemma NothingEndsLoop(s: TokenStream, scope: Block, pos: nat, compat: map<CompatKey, TypeInfo>, acc: seq<Component>, after: Block, p: nat, q: nat)
    requires pos <= |s.tokens|
    requires DeclGrammar.ParseDecl(s, scope, pos, compat) == Ok(DeclParsed(None, after, p))
    requires ParseBlock(s, after, p, compat) == Ok(Scoped(None, after, q))
    ensures ScopeLoop(s, scope, pos, compat, acc) == Ok(ScopeParsed(acc, after, q))
  {
  }

  /**
   * A scope that starts with a statement other than EMPTY is that statement
   * followed by the scope parsed after it: its node's first child is the
   * statement and the rest are the following scope's children, in order.
   */
  lemma ScopeStartsWithStatement(s: TokenStream, scope: Block, pos: nat, compat: map<CompatKey, TypeInfo>, d: DeclParsed)
    requires pos <= |s.tokens|
    requires DeclGrammar.ParseDecl(s, scope, pos, compat) == Ok(d)
    requires d.stmt.Some? && d.stmt.value.NodeTypeOf() != EMPTY
    ensures ParseScope(s, scope, pos, compat) ==
      match ParseScope(s, d.scope, d.pos, compat)
      case Err(e) => Err(e)
      case Ok(rest) => Ok(Scoped(Some([Stmt(d.stmt.value)] + ChildrenOf(rest.node)), rest.scope, rest.pos))
  {
    var c := Stmt(d.stmt.value);
    StatementAppended(s, scope, pos, compat, [], d);
    assert [] + [c] == [c];
    ScopeLoopAppends(s, d.scope, d.pos, compat, [c]);
  }

  /**
   * A scope that starts with a block with children is that block followed
   * by the scope parsed after its '}'.
   */
  lemma ScopeStartsWithBlock(s: TokenStream, scope: Block, pos: nat, compat: map<CompatKey, TypeInfo>, after: Block, p: nat, b: Scoped)
    requires pos <= |s.tokens|
    requires DeclGrammar.ParseDecl(s, scope, pos, compat) == Ok(DeclParsed(None, after, p))
    requires ParseBlock(s, after, p, compat) == Ok(b) && b.node.Some?
    ensures ParseScope(s, scope, pos, compat) ==
      match ParseScope(s, after, b.pos, compat)
      case Err(e) => Err(e)
      case Ok(rest) => Ok(Scoped(Some([Nested(b.node.value)] + ChildrenOf(rest.node)), rest.scope, rest.pos))
  {
    var c := Nested(b.node.value);
    BlockAppended(s, scope, pos, compat, [], after, p, b);
    assert [] + [c] == [c];
    ScopeLoopAppends(s, after, b.pos, compat, [c]);
  }

  /**
   * Statements register only into the scope the loop runs in: its enclosing
   * scopes are untouched, and every name visible before still resolves to
   * the same symbol. Names declared inside a block stay in the block's scope.
   */
  lemma {:induction false} ScopeLoopKeepsVisible(s: TokenStream, scope: Block, pos: nat, compat: map<CompatKey, TypeInfo>, acc: seq<Component>)
    requires pos <= |s.tokens|
    requires ScopeLoop(s, scope, pos, compat, acc).Ok?
    decreases |s.tokens| - pos
    ensures var after := ScopeLoop(s, scope, pos, compat, acc).value.scope;
      after.parent == scope.parent &&
      forall id | GetSymbol(scope, id).Some? :: GetSymbol(after, id) == GetSymbol(scope, id)
  {
    var d := DeclGrammar.ParseDecl(s, scope, pos, compat).value;
    DeclKeepsVisibleSymbols(s, scope, pos, compat);
    if d.stmt.Some? {
      var next := if d.stmt.value.NodeTypeOf() == EMPTY then acc else acc + [Stmt(d.stmt.value)];
      ScopeLoopKeepsVisible(s, d.scope, d.pos, compat, next);
    } else {
      var b := ParseBlock(s, d.scope, d.pos, compat).value;
      if b.node.Some? {
        var next := if |b.node.value| > 0 then acc + [Nested(b.node.value)] else acc;
        ScopeLoopKeepsVisible(s, d.scope, b.pos, compat, next);
      }
    }
  }

  /** A parsed scope node holds no EMPTY statement and no childless block, and the parse keeps what was visible. */
  lemma ParseScopeShape(s: TokenStream, scope: Block, pos: nat, compat: map<CompatKey, TypeInfo>)
    requires pos <= |s.tokens|
    requires ParseScope(s, scope, pos, compat).Ok?
    ensures var r := ParseScope(s, scope, pos, compat).value;
      (r.node.Some? ==> Collected(r.node.value)) &&
      r.scope.parent == scope.parent &&
      forall id | GetSymbol(scope, id).Some? :: GetSymbol(r.scope, id) == GetSymbol(scope, id)
  {
    ScopeLoopCollects(s, scope, pos, compat, []);
    ScopeLoopKeepsVisible(s, scope, pos, compat, []);
  }

  /** At a brace or the end of input there is no statement: nothing is consumed and nothing is registered. */
  lemma NoStatementAt(s: TokenStream, scope: Block, pos: nat, compat: map<CompatKey, TypeInfo>)
    requires pos <= |s.tokens|
    requires Look(s, pos).tokenType in {LBRACKETS, RBRACKETS, EOF}
    ensures DeclGrammar.ParseDecl(s, scope, pos, compat) == Ok(DeclParsed(None, scope, pos))
  {
    ExpressionStatement(s, scope, pos, compat);
    NoOperand(s, scope, pos);
    assert InfixLoop(s, scope, pos, None, false, None) == Ok(Parsed(None, pos));
    assert ExprGrammar.ParseExpr(s, scope, pos, compat) == Ok(Parsed(None, pos));
  }

  /** A lone ';' is parsed as the EMPTY statement: the ';' is consumed and the scope is untouched. */
  lemma SemicolonIsEmptyStatement(s: TokenStream, scope: Block, pos: nat, compat: map<CompatKey, TypeInfo>)
    requires pos <= |s.tokens| && Look(s, pos).tokenType == SEMICOLON
    ensures DeclGrammar.ParseDecl(s, scope, pos, compat) == Ok(DeclParsed(Some(ExprStmt(Empty)), scope, pos + 1))
  {
    ExpressionStatement(s, scope, pos, compat);
    EmptyStatement(s, scope, pos);
    assert ExprGrammar.ParseExpr(s, scope, pos, compat) == Ok(Parsed(Some(Empty), pos + 1));
  }

  /** The EMPTY statement is consumed and not added. */
  lemma EmptyStatementSkipped(s: TokenStream, scope: Block, pos: nat, compat: map<CompatKey, TypeInfo>, acc: seq<Component>)
    requires pos <= |s.tokens| && Look(s, pos).tokenType == SEMICOLON
    ensures ScopeLoop(s, scope, pos, compat, acc) == ScopeLoop(s, scope, pos + 1, compat, acc)
  {
    SemicolonIsEmptyStatement(s, scope, pos, compat);
  }

  /** The end of input ends the loop with what was collected. */
  lemma EndOfInputEndsScope(s: TokenStream, scope: Block, pos: nat, compat: map<CompatKey, TypeInfo>, acc: seq<Component>)
    requires pos <= |s.tokens| && Look(s, pos).tokenType == EOF
    ensures ScopeLoop(s, scope, pos, compat, acc) == Ok(ScopeParsed(acc, scope, pos))
  {
    NoStatementAt(s, scope, pos, compat);
  }

  /** `{}` is a block that comes back null, so it is consumed and ends the enclosing loop. */
  lemma EmptyBlockEndsScope(s: TokenStream, scope: Block, pos: nat, compat: map<CompatKey, TypeInfo>, acc: seq<Component>)
    requires pos + 1 < |s.tokens| && Look(s, pos).tokenType == LBRACKETS && Look(s, pos + 1).tokenType == RBRACKETS
    ensures ScopeLoop(s, scope, pos, compat, acc) == Ok(ScopeParsed(acc, scope, pos + 2))
  {
    NoStatementAt(s, scope, pos, compat);
    var inner := NewBlock(Some(scope));
    NoStatementAt(s, inner, pos + 1, compat);
    assert ScopeLoop(s, inner, pos + 1, compat, []) == Ok(ScopeParsed([], inner, pos + 1));
    assert ParseBlock(s, scope, pos, compat) == Ok(Scoped(None, scope, pos + 2));
  }

  /**
   * A closed block: the body is parsed in a new scope whose parent is the
   * caller's, and the block is the body's scope node, with the '}' consumed
   * and the caller's scope unchanged.
   */
  lemma ClosedBlock(s: TokenStream, scope: Block, pos: nat, compat: map<CompatKey, TypeInfo>, body: Scoped)
    requires pos < |s.tokens| && Look(s, pos).tokenType == LBRACKETS
    requires ParseScope(s, NewBlock(Some(scope)), pos + 1, compat) == Ok(body)
    requires Look(s, body.pos).tokenType == RBRACKETS
    ensures ParseBlock(s, scope, pos, compat) == Ok(Scoped(body.node, scope, Next(s, body.pos)))
  {
  }

  /** A '{' whose body is not followed by '}' fails at the lookahead after the body. */
  lemma UnclosedBlock(s: TokenStream, scope: Block, pos: nat, compat: map<CompatKey, TypeInfo>, body: Scoped)
    requires pos < |s.tokens| && Look(s, pos).tokenType == LBRACKETS
    requires ParseScope(s, NewBlock(Some(scope)), pos + 1, compat) == Ok(body)
    requires Look(s, body.pos).tokenType != RBRACKETS
    ensures ParseBlock(s, scope, pos, compat) == Err(SyntaxError(MissingRBrace, LineAt(s, body.pos)))
  {
  }
}

