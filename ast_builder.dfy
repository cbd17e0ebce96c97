/** Building the expression tree from postfix tokens on an operand stack, as the registry's creators direct. */
module AstBuilder {
  import opened Outcomes
  import opened Tokens
  import opened Operators
  import opened Expressions
  import opened Sequences

  /** How many operands an operator of this arity takes off the stack: a count loop runs no times below zero. */
  function Popped(arity: int): nat
  {
    if arity < 0 then 0 else arity
  }

  /**
   * The tree built from the remaining postfix tokens, starting from the operand stack `stack` (top last).
   * Only number and operator tokens are accepted.
   */
  function BuildFrom(reg: Registry, rpn: seq<Token>, stack: seq<Expr>): (r: Result<Expr>)
    ensures r.Ok? ==> NoParens(rpn)
    decreases |rpn|
  {
    if |rpn| == 0 then
      if |stack| != 1 then Err(InvalidExpression(|stack|)) else Ok(stack[0])
    else
      NoParensFirst(rpn);
      match rpn[0]
      case Number(text) =>
        (match ParseNumeral(text)
         case None => Err(NumberFormat(text))
         case Some(v) => BuildFrom(reg, rpn[1..], stack + [Num(v)]))
      case Operator(sym) =>
        if sym !in reg then Err(UnknownOperator(sym))
        else if |stack| < reg[sym].arity then Err(InsufficientOperands(sym))
        else
          var n := Popped(reg[sym].arity);
          (match Create(reg[sym].creator, stack[|stack| - n..])
           case Err(e) => Err(e)
           case Ok(node) => BuildFrom(reg, rpn[1..], stack[..|stack| - n] + [node]))
      case _ => Err(InvalidToken(Text(rpn[0])))
  }

  /** The tree of a whole postfix sequence. */
  function Build(reg: Registry, rpn: seq<Token>): (r: Result<Expr>)
    ensures r.Ok? ==> NoParens(rpn)
  {
    BuildFrom(reg, rpn, [])
  }

  /**
   * Pops `arity` operands into a list, the top first, then reverses the list, so that the creator
   * receives the operands in their left-to-right order: the one popped first becomes the last argument.
   */
  method PopOperands(stack: seq<Expr>, arity: int) returns (args: seq<Expr>, rest: seq<Expr>)
    requires |stack| >= arity
    ensures arity >= 0 ==> |args| == arity
    ensures arity < 0 ==> args == [] && rest == stack
    ensures args == stack[|stack| - Popped(arity)..]
    ensures rest == stack[..|stack| - Popped(arity)]
  {
    rest := stack;
    var popped: seq<Expr> := [];
    var i := 0;
    while i < arity
      invariant 0 <= i <= Popped(arity)
      invariant rest == stack[..|stack| - i]
      invariant |popped| == i
      invariant forall m :: 0 <= m < i ==> popped[m] == stack[|stack| - 1 - m]
    {
      popped := popped + [rest[|rest| - 1]];
      rest := rest[..|rest| - 1];
      i := i + 1;
    }
    args := Reversed(popped);
    assert forall k :: 0 <= k < i ==> args[k] == stack[|stack| - i..][k];
  }

  method BuildAST(reg: Registry, rpn: seq<Token>) returns (r: Result<Expr>)
    ensures r == Build(reg, rpn)
  {
    var stack: seq<Expr> := [];
    for k := 0 to |rpn|
      invariant Build(reg, rpn) == BuildFrom(reg, rpn[k..], stack)
    {
      var t := rpn[k];
      assert rpn[k..][1..] == rpn[k + 1..];
      match t {
        case Number(text) =>
          var v := ParseNumeral(text);
          if v.None? {
            return Err(NumberFormat(text));
          }
          stack := stack + [Num(v.value)];
        case Operator(sym) =>
          if sym !in reg {
            return Err(UnknownOperator(sym));
          }
          var entry := reg[sym];
          if |stack| < entry.arity {
            return Err(InsufficientOperands(sym));
          }
          var args, rest := PopOperands(stack, entry.arity);
          var node := Create(entry.creator, args);
          if node.Err? {
            return Err(node.error);
          }
          stack := rest + [node.value];
        case _ =>
          return Err(InvalidToken(Text(t)));
      }
    }
    if |stack| != 1 {
      return Err(InvalidExpression(|stack|));
    }
    return Ok(stack[0]);
  }

  /**
   * When the remaining postfix tokens build a tree from a stack of `depth` operands: every number is a
   * numeral, every operator is registered with an arity of at least two (the creators read two
   * arguments) that the stack can supply, no parenthesis occurs, and one operand remains at the end.
   */
  predicate Fits(reg: Registry, rpn: seq<Token>, depth: nat)
    decreases |rpn|
  {
    if |rpn| == 0 then depth == 1
    else match rpn[0]
      case Number(text) => IsNumeral(text) && Fits(reg, rpn[1..], depth + 1)
      case Operator(sym) =>
        && sym in reg && 2 <= reg[sym].arity <= depth
        && Fits(reg, rpn[1..], depth - reg[sym].arity + 1)
      case _ => false
  }

  /** Building succeeds exactly on postfix input that fits the stack. */
  lemma {:induction false} BuildFits(reg: Registry, rpn: seq<Token>, stack: seq<Expr>)
    ensures BuildFrom(reg, rpn, stack).Ok? <==> Fits(reg, rpn, |stack|)
    decreases |rpn|
  {
    if |rpn| > 0 {
      match rpn[0]
      case Number(text) =>
        if ParseNumeral(text).Some? {
          BuildFits(reg, rpn[1..], stack + [Num(ParseNumeral(text).value)]);
        }
      case Operator(sym) =>
        if sym in reg && |stack| >= reg[sym].arity >= 2 {
          var n := reg[sym].arity;
          var node := Create(reg[sym].creator, stack[|stack| - n..]);
          BuildFits(reg, rpn[1..], stack[..|stack| - n] + [node.value]);
        }
      case _ =>
    }
  }

  /** The errors of building: each names the token or the stack size at fault. */
  lemma {:induction false} BuildErrors(reg: Registry, rpn: seq<Token>, stack: seq<Expr>)
    ensures var r := BuildFrom(reg, rpn, stack);
      r.Err? ==>
        || (r.error.InvalidExpression? && r.error.stackSize != 1)
        || (r.error.NumberFormat? && Number(r.error.text) in rpn && !IsNumeral(r.error.text))
        || (r.error.UnknownOperator? && Operator(r.error.symbol) in rpn && r.error.symbol !in reg)
        || (r.error.InsufficientOperands? && Operator(r.error.symbol) in rpn)
        || (r.error.IndexOutOfBounds? && r.error.index == r.error.length && r.error.length < 2)
        || (r.error.InvalidToken? && (LeftParen in rpn || RightParen in rpn))
    decreases |rpn|
  {
    if |rpn| > 0 {
      assert rpn[0] in rpn;
      match rpn[0]
      case Number(text) =>
        if ParseNumeral(text).Some? {
          var stack' := stack + [Num(ParseNumeral(text).value)];
          BuildErrors(reg, rpn[1..], stack');
          TailMembers(rpn);
        }
      case Operator(sym) =>
        if sym in reg && |stack| >= reg[sym].arity {
          var n := Popped(reg[sym].arity);
          var node := Create(reg[sym].creator, stack[|stack| - n..]);
          if node.Ok? {
            BuildErrors(reg, rpn[1..], stack[..|stack| - n] + [node.value]);
            TailMembers(rpn);
          }
        }
      case _ =>
    }
  }

  lemma TailMembers(rpn: seq<Token>)
    requires |rpn| > 0
    ensures forall t :: t in rpn[1..] ==> t in rpn
  {
    assert forall k :: 0 <= k < |rpn| - 1 ==> rpn[1..][k] == rpn[k + 1];
  }

  /** All operators are binary, as the two built-in ones are. */
  ghost predicate Binary(reg: Registry)
  {
    forall s :: s in reg ==> reg[s].arity == 2
  }

  /** The values of the numbers in a postfix sequence, in order. */
  function NumberValues(rpn: seq<Token>): seq<int>
    decreases |rpn|
  {
    if |rpn| == 0 then []
    else
      (match rpn[0]
       case Number(text) => (match ParseNumeral(text) case Some(v) => [v] case None => [])
       case _ => [])
      + NumberValues(rpn[1..])
  }

  /** The leaves of the trees on an operand stack, bottom to top. */
  function StackLeaves(stack: seq<Expr>): seq<int>
  {
    if |stack| == 0 then [] else StackLeaves(stack[..|stack| - 1]) + Leaves(stack[|stack| - 1])
  }

  lemma StackLeavesPush(stack: seq<Expr>, e: Expr)
    ensures StackLeaves(stack + [e]) == StackLeaves(stack) + Leaves(e)
  {
    assert (stack + [e])[..|stack|] == stack;
  }

  /**
   * With binary operators the tree keeps every number, in input order, below the operands already
   * stacked: the creator receives its operands left to right.
   */
  lemma {:induction false} BuildKeepsLeaves(reg: Registry, rpn: seq<Token>, stack: seq<Expr>)
    requires Binary(reg)
    ensures BuildFrom(reg, rpn, stack).Ok? ==>
      Leaves(BuildFrom(reg, rpn, stack).value) == StackLeaves(stack) + NumberValues(rpn)
    decreases |rpn|, 1
  {
    if |rpn| == 0 {
      if |stack| == 1 {
        assert stack[..0] == [];
      }
    } else {
      match rpn[0]
      case Number(_) => BuildKeepsLeavesPush(reg, rpn, stack);
      case Operator(_) => BuildKeepsLeavesApply(reg, rpn, stack);
      case _ =>
    }
  }

  lemma {:induction false} BuildKeepsLeavesPush(reg: Registry, rpn: seq<Token>, stack: seq<Expr>)
    requires Binary(reg) && |rpn| > 0 && rpn[0].Number?
    ensures BuildFrom(reg, rpn, stack).Ok? ==>
      Leaves(BuildFrom(reg, rpn, stack).value) == StackLeaves(stack) + NumberValues(rpn)
    decreases |rpn|, 0
  {
    var text := rpn[0].text;
    if ParseNumeral(text).Some? {
      var v := ParseNumeral(text).value;
      assert BuildFrom(reg, rpn, stack) == BuildFrom(reg, rpn[1..], stack + [Num(v)]);
      assert NumberValues(rpn) == [v] + NumberValues(rpn[1..]);
      BuildKeepsLeaves(reg, rpn[1..], stack + [Num(v)]);
      StackLeavesPush(stack, Num(v));
    }
  }

  lemma {:induction false} BuildKeepsLeavesApply(reg: Registry, rpn: seq<Token>, stack: seq<Expr>)
    requires Binary(reg) && |rpn| > 0 && rpn[0].Operator?
    ensures BuildFrom(reg, rpn, stack).Ok? ==>
      Leaves(BuildFrom(reg, rpn, stack).value) == StackLeaves(stack) + NumberValues(rpn)
    decreases |rpn|, 0
  {
    var sym := rpn[0].symbol;
    if sym in reg && |stack| >= 2 {
      var n := |stack|;
      var node := Create(reg[sym].creator, stack[n - 2..]);
      var below := stack[..n - 2];
      assert Popped(reg[sym].arity) == 2;
      assert BuildFrom(reg, rpn, stack) == BuildFrom(reg, rpn[1..], below + [node.value]);
      assert NumberValues(rpn) == NumberValues(rpn[1..]);
      BuildKeepsLeaves(reg, rpn[1..], below + [node.value]);
      StackLeavesPush(below, node.value);
      assert stack[..n - 1][..n - 2] == below;
      assert StackLeaves(stack) == StackLeaves(below) + Leaves(stack[n - 2]) + Leaves(stack[n - 1]);
    }
  }

  /** The tree of a postfix sequence holds its numbers as leaves, in order. */
  lemma BuildLeaves(reg: Registry, rpn: seq<Token>)
    requires Binary(reg)
    ensures Build(reg, rpn).Ok? ==> Leaves(Build(reg, rpn).value) == NumberValues(rpn)
  {
    BuildKeepsLeaves(reg, rpn, []);
  }
}
