/** The operator registry: for each symbol, its precedence, associativity, arity and two behaviours. */
module Operators {
  import opened Outcomes
  import opened Expressions

  /**
   * One registered operator. `creator` is the AST creator (it builds a node of that operation from
   * its arguments, see Expressions.Create); `evaluator` is the direct two-operand evaluator used by
   * the stepwise evaluator, or None when the operator was registered without one.
   */
  datatype OperatorEntry = OperatorEntry(
    precedence: int,
    rightAssociative: bool,
    arity: int,
    creator: BinOp,
    evaluator: Option<BinOp>)

  /** A snapshot of the registry, as the parser's stages read it. */
  type Registry = map<string, OperatorEntry>

  function Lookup(reg: Registry, symbol: string): (r: Option<OperatorEntry>)
    ensures r.Some? <==> symbol in reg
    ensures r.Some? ==> r.value == reg[symbol]
  {
    if symbol in reg then Some(reg[symbol]) else None
  }

  /**
   * The registry's two behaviours of every operator agree: a direct evaluator, when present,
   * computes the same operation as the node its creator builds.
   */
  ghost predicate Consistent(reg: Registry)
  {
    forall symbol | symbol in reg :: reg[symbol].evaluator.None? || reg[symbol].evaluator.value == reg[symbol].creator
  }

  /** The process-wide registry. Registering a symbol a second time replaces its entry. */
  class OperatorRegistry {
    var entries: Registry

    constructor ()
      ensures entries == map[]
    {
      entries := map[];
    }

    method Register(symbol: string, precedence: int, rightAssoc: bool, arity: int, creator: BinOp, evaluator: Option<BinOp>)
      modifies this
      ensures entries == old(entries)[symbol := OperatorEntry(precedence, rightAssoc, arity, creator, evaluator)]
      ensures Get(symbol) == Some(OperatorEntry(precedence, rightAssoc, arity, creator, evaluator))
      ensures IsOperator(symbol)
      ensures forall s :: s != symbol ==> Get(s) == old(Get(s))
    {
      entries := entries[symbol := OperatorEntry(precedence, rightAssoc, arity, creator, evaluator)];
    }

    function Get(symbol: string): Option<OperatorEntry>
      reads this
    {
      Lookup(entries, symbol)
    }

    predicate IsOperator(s: string)
      reads this
    {
      s in entries
    }
  }

  /** The two built-in operators: `+` and `-`, precedence 1, left-associative, binary. */
  function Builtins(): (reg: Registry)
    ensures Consistent(reg)
  {
    map[
      "+" := OperatorEntry(1, false, 2, Add, Some(Add)),
      "-" := OperatorEntry(1, false, 2, Sub, Some(Sub))]
  }

  /** The start-up registration: a fresh registry holding exactly the built-in operators. */
  method RegisterBuiltins() returns (registry: OperatorRegistry)
    ensures fresh(registry)
    ensures registry.entries == Builtins()
  {
    registry := new OperatorRegistry();
    registry.Register("+", 1, false, 2, Add, Some(Add));
    registry.Register("-", 1, false, 2, Sub, Some(Sub));
  }
}
