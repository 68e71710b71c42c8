/**
 * Scopes of the parser (`Parser.Block`): a scope owns a symbol table chained
 * to the enclosing scope's table. The chained table's lookup is not part of
 * this model; it is taken to search the own table first and then the
 * enclosing tables outwards, so that a name declared in an enclosing block
 * resolves. Registration writes the own table only.
 *
 * Scopes are values here: an operation that registers or retypes a symbol
 * returns the updated scope, and the parsers thread it on.
 */
module Scopes {
  import opened Wrappers
  import opened Exceptions
  import opened Types

  /** A variable or constant: its name, its data type (null until known) and whether it may be reassigned. */
  datatype VarInfo = VarInfo(id: string, dataType: Option<TypeInfo>, mutable: bool)

  /** A scope: its own symbol table, by name, and the enclosing scope (null for the outermost). */
  datatype Block = Block(table: map<string, VarInfo>, parent: Option<Block>)

  /** `getSymbol`: the nearest symbol with that name, searching outwards; null when no scope has it. */
  function GetSymbol(b: Block, id: string): (r: Option<VarInfo>)
    decreases b
  {
    if id in b.table then Some(b.table[id])
    else if b.parent.Some? then GetSymbol(b.parent.value, id)
    else None
  }

  /** The constructor: a fresh, empty table chained to the parent's (no parent table for a root scope). */
  function NewBlock(parent: Option<Block>): (b: Block)
    ensures b.parent == parent && b.table == map[]
    ensures forall id :: GetSymbol(b, id) == (if parent.Some? then GetSymbol(parent.value, id) else None)
  {
    Block(map[], parent)
  }

  /** `register`: the symbol goes into the scope's own table under its name. */
  function Register(b: Block, v: VarInfo): (r: Block)
    ensures r.parent == b.parent
    ensures GetSymbol(r, v.id) == Some(v)
    ensures forall id :: id != v.id ==> GetSymbol(r, id) == GetSymbol(b, id)
  {
    b.(table := b.table[v.id := v])
  }

  /**
   * `((VarInfo) getSymbol(id)).setDataType(t)`: the nearest symbol named `id`
   * gets the type, wherever it lives in the chain; when there is none the
   * dereference of null fails.
   */
  function SetSymbolType(b: Block, id: string, t: TypeInfo): (r: Result<Block>)
    decreases b
    ensures r.Ok? <==> GetSymbol(b, id).Some?
    ensures r.Err? ==> r.error == NullPointer
    ensures r.Ok? ==> GetSymbol(r.value, id) == Some(GetSymbol(b, id).value.(dataType := Some(t)))
    ensures r.Ok? ==> forall other :: other != id ==> GetSymbol(r.value, other) == GetSymbol(b, other)
    ensures r.Ok? && id in b.table ==> r.value.parent == b.parent
  {
    if id in b.table then Ok(b.(table := b.table[id := b.table[id].(dataType := Some(t))]))
    else if b.parent.Some? then
      match SetSymbolType(b.parent.value, id, t)
      case Ok(p) => Ok(b.(parent := Some(p)))
      case Err(e) => Err(e)
    else Err(NullPointer)
  }

  /** The number of scopes in the chain, this one included. */
  function Depth(b: Block): (d: nat)
    decreases b
    ensures d >= 1
  {
    if b.parent.Some? then 1 + Depth(b.parent.value) else 1
  }

  /**
   * A name registered in the own table would shadow every enclosing
   * declaration of it. No parse reaches this registration: the redeclaration
   * check (`DeclGrammar.Lhs`) rejects any name visible from the scope first.
   */
  lemma {:induction false} Shadowing(b: Block, id: string, v: VarInfo)
    requires b.parent.Some? && GetSymbol(b.parent.value, id).Some?
    requires v.id == id
    ensures GetSymbol(Register(b, v), id) == Some(v)
    ensures GetSymbol(Register(b, v).parent.value, id) == GetSymbol(b.parent.value, id)
  {
  }

  /** A child scope sees every symbol of its parent until it declares one of its own with that name. */
  lemma {:induction false} ChildSeesParent(parent: Block, id: string)
    ensures GetSymbol(NewBlock(Some(parent)), id) == GetSymbol(parent, id)
    ensures Depth(NewBlock(Some(parent))) == Depth(parent) + 1
  {
  }
}
