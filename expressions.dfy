/** The expression tree and its meaning: number leaves and binary nodes for addition and subtraction. */
module Expressions {
  import opened Outcomes

  /** The two binary operations the engine's expression nodes implement. */
  datatype BinOp = Add | Sub

  /** What a binary node computes from its two operand values. */
  function Apply(op: BinOp, a: int, b: int): int
  {
    match op
    case Add => a + b
    case Sub => a - b
  }

  /** An immutable, strictly tree-shaped expression. */
  datatype Expr = Num(value: int) | Bin(op: BinOp, left: Expr, right: Expr)

  /** The value of an expression: a leaf is its number, a node applies its operation to its children's values. */
  function Interpret(e: Expr): int
  {
    match e
    case Num(v) => v
    case Bin(op, l, r) => Apply(op, Interpret(l), Interpret(r))
  }

  /** The number leaves of a tree, left to right. Every tree has at least one. */
  function Leaves(e: Expr): (r: seq<int>)
    ensures |r| > 0
  {
    match e
    case Num(v) => [v]
    case Bin(_, l, r) => Leaves(l) + Leaves(r)
  }

  /** The sum of a list of integers. */
  function Sum(s: seq<int>): int
  {
    if |s| == 0 then 0 else s[0] + Sum(s[1..])
  }

  lemma {:induction false} SumAppend(a: seq<int>, b: seq<int>)
    ensures Sum(a + b) == Sum(a) + Sum(b)
    decreases |a|
  {
    if |a| == 0 {
      assert a + b == b;
    } else {
      assert (a + b)[1..] == a[1..] + b;
      SumAppend(a[1..], b);
    }
  }

  /**
   * The leaves of a tree, each with the sign it gets in the tree's value: the right operand of a
   * subtraction flips the sign of everything below it. `positive` is the sign of the whole tree.
   */
  function SignedLeaves(e: Expr, positive: bool): seq<int>
  {
    match e
    case Num(v) => [if positive then v else -v]
    case Bin(op, l, r) => SignedLeaves(l, positive) + SignedLeaves(r, if op == Sub then !positive else positive)
  }

  /** Every node is an addition. */
  predicate AdditionsOnly(e: Expr)
  {
    match e
    case Num(_) => true
    case Bin(op, l, r) => op == Add && AdditionsOnly(l) && AdditionsOnly(r)
  }

  /**
   * An addition and subtraction tree has as its value the sum of its leaves, each taken with the
   * sign the subtractions above it give.
   */
  lemma {:induction false} InterpretSignedSum(e: Expr, positive: bool)
    ensures Sum(SignedLeaves(e, positive)) == if positive then Interpret(e) else -Interpret(e)
  {
    match e
    case Num(v) =>
      assert Sum(SignedLeaves(e, positive)) == (if positive then v else -v) + Sum([]);
    case Bin(op, l, r) =>
      var inner := if op == Sub then !positive else positive;
      InterpretSignedSum(l, positive);
      InterpretSignedSum(r, inner);
      SumAppend(SignedLeaves(l, positive), SignedLeaves(r, inner));
  }

  /** `signed` lists the elements of `plain`, each as it is or negated. */
  predicate UpToSign(signed: seq<int>, plain: seq<int>)
  {
    |signed| == |plain| && forall k :: 0 <= k < |plain| ==> signed[k] == plain[k] || signed[k] == -plain[k]
  }

  lemma UpToSignAppend(a: seq<int>, b: seq<int>, c: seq<int>, d: seq<int>)
    requires UpToSign(a, b) && UpToSign(c, d)
    ensures UpToSign(a + c, b + d)
  {
    forall k | 0 <= k < |b + d| ensures (a + c)[k] == (b + d)[k] || (a + c)[k] == -(b + d)[k] {
      if k >= |b| {
        assert (a + c)[k] == c[k - |a|] && (b + d)[k] == d[k - |b|];
      }
    }
  }

  /** Each signed leaf is the leaf itself or its negation, and the leftmost leaf keeps the tree's sign. */
  lemma {:induction false} SignedLeavesMatch(e: Expr, positive: bool)
    ensures UpToSign(SignedLeaves(e, positive), Leaves(e))
    ensures SignedLeaves(e, positive)[0] == if positive then Leaves(e)[0] else -Leaves(e)[0]
  {
    match e
    case Num(_) =>
    case Bin(op, l, r) =>
      var inner := if op == Sub then !positive else positive;
      SignedLeavesMatch(l, positive);
      SignedLeavesMatch(r, inner);
      UpToSignAppend(SignedLeaves(l, positive), Leaves(l), SignedLeaves(r, inner), Leaves(r));
  }

  /** A tree of additions only has the sum of its leaves as its value. */
  lemma {:induction false} AdditionTreeValue(e: Expr)
    requires AdditionsOnly(e)
    ensures Interpret(e) == Sum(Leaves(e))
  {
    match e
    case Num(v) =>
      assert Sum(Leaves(e)) == v + Sum([]);
    case Bin(_, l, r) =>
      AdditionTreeValue(l);
      AdditionTreeValue(r);
      SumAppend(Leaves(l), Leaves(r));
  }

  /**
   * The AST creator registered with an operator: it builds a node of operation `op` from the first
   * two arguments of the list it receives and ignores any further ones. It reads element 0 and
   * then element 1, so a shorter list fails at the first index it lacks.
   */
  function Create(op: BinOp, args: seq<Expr>): (r: Result<Expr>)
    ensures r.Ok? <==> |args| >= 2
    ensures r.Ok? ==> r.value.Bin? && r.value.op == op && Leaves(r.value) == Leaves(args[0]) + Leaves(args[1])
    ensures r.Ok? ==> Interpret(r.value) == Apply(op, Interpret(args[0]), Interpret(args[1]))
    ensures r.Err? ==> r.error == IndexOutOfBounds(|args|, |args|)
  {
    if |args| < 1 then Err(IndexOutOfBounds(0, |args|))
    else if |args| < 2 then Err(IndexOutOfBounds(1, |args|))
    else Ok(Bin(op, args[0], args[1]))
  }
}
