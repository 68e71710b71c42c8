/**
 * Abstract syntax tree nodes. `Node` (token, node type, child list and its
 * iterator) and `ScopeNode` are objects whose lists are appended in place.
 * The typed expression nodes (`DataTypeNode`, `VarNode`, `UnaryNode`,
 * `BinaryNode`) are values: `Expr` for expressions, `Decl` and `Statement`
 * for declarations, and `Component` for what a scope holds.
 */
module Nodes {
  import opened Wrappers
  import opened Exceptions
  import opened Tokens
  import opened Types

  datatype NodeType = SCOPE | DECL | DEF | TERMINAL | EMPTY | UNARY_OP | BINARY_OP

  class Node {
    const tok: Option<Token>
    const nodeType: NodeType
    var children: seq<Node>

    /** Token and node type are fixed here; the child list starts empty. */
    constructor (tok: Option<Token>, nodeType: NodeType)
      ensures this.tok == tok && this.nodeType == nodeType
      ensures children == []
    {
      this.tok := tok;
      this.nodeType := nodeType;
      children := [];
    }

    /** `getChild(i)`: the i-th child added; outside the list the lookup fails. */
    function GetChild(i: int): (r: Result<Node>)
      reads this
      ensures 0 <= i < |children| ==> r == Ok(children[i])
      ensures !(0 <= i < |children|) ==> r == Err(IndexOutOfBounds)
    {
      if 0 <= i < |children| then Ok(children[i]) else Err(IndexOutOfBounds)
    }

    /** `addChild`: append at the end. */
    method AddChild(child: Node)
      modifies this
      ensures children == old(children) + [child]
      ensures CountChildren() == old(CountChildren()) + 1
      ensures GetChild(old(CountChildren())) == Ok(child)
    {
      children := children + [child];
    }

    /** `countChildren`: the number of children added. */
    function CountChildren(): (n: nat)
      reads this
      ensures n == |children|
    {
      |children|
    }

    /** `iterator`: a fresh iterator at the first child. */
    method Iterator() returns (it: NodeIter)
      ensures fresh(it) && it.node == this && it.index == 0
    {
      it := new NodeIter(this);
    }
  }

  /** The iterator over a node's children, in insertion order. */
  class NodeIter {
    const node: Node
    var index: nat

    constructor (node: Node)
      ensures this.node == node && index == 0
    {
      this.node := node;
      index := 0;
    }

    /** `hasNext`: children remain. */
    predicate HasNext()
      reads this, node
    {
      index < |node.children|
    }

    /** `next`: the child at the index, then one step on; past the end the lookup fails and the index stays. */
    method Next() returns (r: Result<Node>)
      modifies this
      ensures old(HasNext()) ==> r == Ok(node.children[old(index)]) && index == old(index) + 1
      ensures !old(HasNext()) ==> r == Err(IndexOutOfBounds) && index == old(index)
    {
      r := node.GetChild(index);
      if r.Ok? {
        index := index + 1;
      }
    }
  }

  // ---------------------------------------------------------------- expression and statement nodes

  /** Expression nodes. `dataType` is null until semantic analysis sets it (a literal's is set when it is built). */
  datatype Expr =
    | Literal(tok: Token, literalType: TypeInfo)                                  // TERMINAL node of a literal
    | Var(tok: Token, dataType: Option<TypeInfo>, mutable: bool)                  // TERMINAL VarNode of an identifier
    | Empty                                                                       // the EMPTY sentinel of ';'
    | Unary(tok: Token, child: Expr, dataType: Option<TypeInfo>)                  // UNARY_OP node
    | Binary(tok: Token, left: Expr, right: Option<Expr>, dataType: Option<TypeInfo>) // BINARY_OP node; the right operand may be null
  {
    function NodeTypeOf(): NodeType {
      match this
      case Literal(_, _) => TERMINAL
      case Var(_, _, _) => TERMINAL
      case Empty => EMPTY
      case Unary(_, _, _) => UNARY_OP
      case Binary(_, _, _, _) => BINARY_OP
    }

    /** `getTok`: the sentinel has none. */
    function Tok(): Option<Token> {
      if Empty? then None else Some(tok)
    }

    /** `getDataType`. */
    function DataType(): Option<TypeInfo> {
      match this
      case Literal(_, t) => Some(t)
      case Empty => None
      case _ => dataType
    }
  }

  /** The DECL node of a declaration: the name token, the declared type (null when not annotated) and mutability. */
  datatype Decl = Decl(idTok: Token, declType: Option<TypeInfo>, mutable: bool)

  /** What a statement parse yields. */
  datatype Statement =
    | ExprStmt(expr: Expr)                                                          // a bare expression, or the EMPTY sentinel
    | DeclStmt(decl: Decl)                                                          // `var x: T;`
    | DefStmt(assignTok: Token, lhs: Option<Decl>, rhs: Expr, defType: Option<TypeInfo>) // DEF node: lhs '=' rhs
  {
    function NodeTypeOf(): NodeType {
      match this
      case ExprStmt(e) => e.NodeTypeOf()
      case DeclStmt(_) => DECL
      case DefStmt(_, _, _, _) => DEF
    }
  }

  /** A child of a scope node: a statement, or the children of a nested block's scope node. */
  datatype Component = Stmt(stmt: Statement) | Nested(children: seq<Component>)

  /**
   * A scope node: the inherited node part (no token, type SCOPE) and a child
   * list of its own. `addChild` and `countChildren` use the own list; the
   * inherited `getChild` and iterator keep seeing the inherited list.
   */
  class ScopeNode {
    const base: Node
    var children: seq<Component>

    constructor ()
      ensures fresh(base) && base.tok == None && base.nodeType == SCOPE && base.children == []
      ensures children == []
    {
      base := new Node(None, SCOPE);
      children := [];
    }

    /** `addChild`: append to the own list; the inherited list is not touched. */
    method AddChild(child: Component)
      modifies this
      ensures children == old(children) + [child]
      ensures CountChildren() == old(CountChildren()) + 1
    {
      children := children + [child];
    }

    /** `countChildren`: the size of the own list. */
    function CountChildren(): (n: nat)
      reads this
      ensures n == |children|
    {
      |children|
    }

    /** The inherited `getChild`, which reads the inherited list. */
    function GetChild(i: int): (r: Result<Node>)
      reads this, base
      ensures r == base.GetChild(i)
    {
      base.GetChild(i)
    }
  }

  /**
   * A new scope node with children added: `countChildren` counts them, but the
   * inherited `getChild` reads the inherited list, which stays empty, so it
   * finds none of them at any index.
   */
  method InheritedListStaysEmpty(first: Component, second: Component, i: int) returns (count: nat, r: Result<Node>)
    ensures count == 2
    ensures r == Err(IndexOutOfBounds)
  {
    var n := new ScopeNode();
    n.AddChild(first);
    n.AddChild(second);
    count := n.CountChildren();
    r := n.GetChild(i);
  }
}
