/** Evaluating postfix tokens directly on a value stack, recording each step. */
module StepEvaluator {
  import opened Outcomes
  import opened Tokens
  import opened Operators
  import opened Expressions
  import opened AstBuilder

  /** One line of the evaluation trace. */
  datatype TraceStep =
    | Push(text: string)                                   // a number pushed, with its token's text
    | Applied(symbol: string, operands: seq<int>, result: int)  // an operator applied to the popped operands
    | Final(value: int)                                    // the value left on the stack

  /** The operands listed after "on", separated by a comma and a space. */
  function Joined(values: seq<int>): string
  {
    if |values| == 0 then ""
    else if |values| == 1 then IntToString(values[0])
    else IntToString(values[0]) + ", " + Joined(values[1..])
  }

  /** The text of a trace line; values print as whole numbers. */
  function Render(s: TraceStep): (line: string)
    ensures s.Push? ==> line == "Push " + s.text
    ensures s.Applied? ==> |line| > 6 + |s.symbol| + 4 && line[..6 + |s.symbol| + 4] == "Apply " + s.symbol + " on "
    ensures s.Final? ==> |line| > 8 && line[..8] == "Result: " && ParseNumeral(line[8..]) == Some(s.value)
  {
    match s
    case Push(text) => "Push " + text
    case Applied(sym, operands, result) => "Apply " + sym + " on " + Joined(operands) + " => " + IntToString(result)
    case Final(v) =>
      IntToStringRoundTrip(v);
      assert ("Result: " + IntToString(v))[8..] == IntToString(v);
      "Result: " + IntToString(v)
  }

  /** The operation an entry computes for the evaluator: its direct evaluator, or its creator when it has none. */
  function Effective(entry: OperatorEntry): BinOp
  {
    match entry.evaluator
    case Some(f) => f
    case None => entry.creator
  }

  /** Number leaves for a list of values. */
  function Nums(values: seq<int>): (es: seq<Expr>)
    ensures |es| == |values|
    ensures forall k :: 0 <= k < |values| ==> es[k] == Num(values[k])
  {
    if |values| == 0 then [] else [Num(values[0])] + Nums(values[1..])
  }

  /**
   * The value of one operator application: the direct evaluator applied to the first two operands,
   * or, without one, the creator's node over number leaves, interpreted. Either reads the first and
   * then the second operand, so a shorter operand list fails at the first index it lacks.
   */
  function Operate(entry: OperatorEntry, args: seq<int>): (r: Result<int>)
    ensures r.Ok? <==> |args| >= 2
    ensures r.Ok? ==> r.value == Apply(Effective(entry), args[0], args[1])
    ensures r.Err? ==> r.error == IndexOutOfBounds(|args|, |args|)
  {
    match entry.evaluator
    case None =>
      (match Create(entry.creator, Nums(args))
       case Err(e) => Err(e)
       case Ok(node) => Ok(Interpret(node)))
    case Some(f) =>
      if |args| < 1 then Err(IndexOutOfBounds(0, |args|))
      else if |args| < 2 then Err(IndexOutOfBounds(1, |args|))
      else Ok(Apply(f, args[0], args[1]))
  }

  /**
   * The trace of the remaining postfix tokens from the value stack `stack` (top last). Tokens that are
   * neither numbers nor operators are passed over.
   */
  function EvalFrom(reg: Registry, rpn: seq<Token>, stack: seq<int>): Result<seq<TraceStep>>
    decreases |rpn|
  {
    if |rpn| == 0 then
      if |stack| != 1 then Err(EvaluationStack(|stack|)) else Ok([Final(stack[0])])
    else match rpn[0]
      case Number(text) =>
        (match ParseNumeral(text)
         case None => Err(NumberFormat(text))
         case Some(v) => Then([Push(text)], EvalFrom(reg, rpn[1..], stack + [v])))
      case Operator(sym) =>
        if sym !in reg then Err(UnknownOperator(sym))
        else if |stack| < reg[sym].arity then Err(InsufficientOperands(sym))
        else if reg[sym].arity < 0 then Err(NegativeArraySize(reg[sym].arity))
        else
          var n := reg[sym].arity;
          var args := stack[|stack| - n..];
          (match Operate(reg[sym], args)
           case Err(e) => Err(e)
           case Ok(v) => Then([Applied(sym, args, v)], EvalFrom(reg, rpn[1..], stack[..|stack| - n] + [v])))
      case _ => EvalFrom(reg, rpn[1..], stack)
  }

  /** The trace of a whole postfix sequence. */
  function Evaluation(reg: Registry, rpn: seq<Token>): Result<seq<TraceStep>>
  {
    EvalFrom(reg, rpn, [])
  }

  /** Pops `arity` values into an array from its last slot down, so that the array lists them bottom to top. */
  method PopValues(stack: seq<int>, arity: int) returns (args: array<int>, rest: seq<int>)
    requires 0 <= arity <= |stack|
    ensures fresh(args)
    ensures args[..] == stack[|stack| - arity..]
    ensures rest == stack[..|stack| - arity]
  {
    args := new int[arity];
    rest := stack;
    var i := arity - 1;
    while i >= 0
      invariant -1 <= i < arity
      invariant rest == stack[..|stack| - (arity - 1 - i)]
      invariant forall m :: i < m < arity ==> args[m] == stack[|stack| - arity + m]
    {
      args[i] := rest[|rest| - 1];
      rest := rest[..|rest| - 1];
      i := i - 1;
    }
  }

  method EvaluateRPNWithSteps(reg: Registry, rpn: seq<Token>) returns (r: Result<seq<TraceStep>>)
    ensures r == Evaluation(reg, rpn)
  {
    var steps: seq<TraceStep> := [];
    var st: seq<int> := [];
    ThenThen([], [], Evaluation(reg, rpn));
    for k := 0 to |rpn|
      invariant Evaluation(reg, rpn) == Then(steps, EvalFrom(reg, rpn[k..], st))
    {
      var t := rpn[k];
      assert rpn[k..][1..] == rpn[k + 1..];
      match t {
        case Number(text) =>
          var v := ParseNumeral(text);
          if v.None? {
            return Err(NumberFormat(text));
          }
          st := st + [v.value];
          ThenThen(steps, [Push(text)], EvalFrom(reg, rpn[k + 1..], st));
          steps := steps + [Push(text)];
        case Operator(sym) =>
          if sym !in reg {
            return Err(UnknownOperator(sym));
          }
          var entry := reg[sym];
          if |st| < entry.arity {
            return Err(InsufficientOperands(sym));
          }
          if entry.arity < 0 {
            return Err(NegativeArraySize(entry.arity));
          }
          var args, rest := PopValues(st, entry.arity);
          var operands := args[..];
          var res := Operate(entry, operands);
          if res.Err? {
            return Err(res.error);
          }
          st := rest + [res.value];
          ThenThen(steps, [Applied(sym, operands, res.value)], EvalFrom(reg, rpn[k + 1..], st));
          steps := steps + [Applied(sym, operands, res.value)];
        case _ =>
      }
    }
    if |st| != 1 {
      return Err(EvaluationStack(|st|));
    }
    steps := steps + [Final(st[|st| - 1])];
    return Ok(steps);
  }

  /** The tokens the evaluator acts on: the numbers and operators, in order. */
  function Executed(rpn: seq<Token>): seq<Token>
    decreases |rpn|
  {
    if |rpn| == 0 then []
    else (if rpn[0].Number? || rpn[0].Operator? then [rpn[0]] else []) + Executed(rpn[1..])
  }

  /** A trace line records its token: a push gives the number's text, an application its operator and values. */
  ghost predicate Records(reg: Registry, s: TraceStep, t: Token)
  {
    match s
    case Push(text) => t == Number(text)
    case Applied(sym, operands, result) =>
      && t == Operator(sym) && sym in reg
      && |operands| == reg[sym].arity >= 2
      && result == Apply(Effective(reg[sym]), operands[0], operands[1])
    case Final(_) => false
  }

  /** The trace has one line per number and operator, in order, and then the final result line. */
  lemma {:induction false} EvalTrace(reg: Registry, rpn: seq<Token>, stack: seq<int>)
    ensures TraceShape(reg, rpn, EvalFrom(reg, rpn, stack))
    decreases |rpn|, 1
  {
    if |rpn| > 0 {
      match rpn[0]
      case Number(_) => EvalTracePush(reg, rpn, stack);
      case Operator(_) => EvalTraceApply(reg, rpn, stack);
      case _ =>
        assert EvalFrom(reg, rpn, stack) == EvalFrom(reg, rpn[1..], stack);
        assert Executed(rpn) == Executed(rpn[1..]);
        EvalTrace(reg, rpn[1..], stack);
    }
  }

  /** The trace of `rpn`, when there is one, has one recording line per executed token and then the result line. */
  ghost predicate TraceShape(reg: Registry, rpn: seq<Token>, r: Result<seq<TraceStep>>)
  {
    r.Ok? ==>
      && |r.value| == |Executed(rpn)| + 1
      && r.value[|r.value| - 1].Final?
      && forall k :: 0 <= k < |Executed(rpn)| ==> Records(reg, r.value[k], Executed(rpn)[k])
  }

  lemma {:induction false} EvalTracePush(reg: Registry, rpn: seq<Token>, stack: seq<int>)
    requires |rpn| > 0 && rpn[0].Number?
    ensures TraceShape(reg, rpn, EvalFrom(reg, rpn, stack))
    decreases |rpn|, 0
  {
    var t := rpn[0];
    if ParseNumeral(t.text).Some? {
      var stack' := stack + [ParseNumeral(t.text).value];
      var rest := EvalFrom(reg, rpn[1..], stack');
      assert EvalFrom(reg, rpn, stack) == Then([Push(t.text)], rest);
      assert Executed(rpn) == [t] + Executed(rpn[1..]);
      EvalTrace(reg, rpn[1..], stack');
      ShiftRecords(reg, Push(t.text), t, rest, Executed(rpn[1..]));
    }
  }

  lemma {:induction false} EvalTraceApply(reg: Registry, rpn: seq<Token>, stack: seq<int>)
    requires |rpn| > 0 && rpn[0].Operator?
    ensures TraceShape(reg, rpn, EvalFrom(reg, rpn, stack))
    decreases |rpn|, 0
  {
    var t := rpn[0];
    var sym := t.symbol;
    if sym in reg && |stack| >= reg[sym].arity >= 0 {
      var n := reg[sym].arity;
      var args := stack[|stack| - n..];
      var v := Operate(reg[sym], args);
      if v.Ok? {
        var stack' := stack[..|stack| - n] + [v.value];
        var rest := EvalFrom(reg, rpn[1..], stack');
        assert EvalFrom(reg, rpn, stack) == Then([Applied(sym, args, v.value)], rest);
        assert Executed(rpn) == [t] + Executed(rpn[1..]);
        EvalTrace(reg, rpn[1..], stack');
        ShiftRecords(reg, Applied(sym, args, v.value), t, rest, Executed(rpn[1..]));
      }
    }
  }

  /** A recorded line in front of a trace that records the remaining tokens. */
  lemma ShiftRecords(reg: Registry, s: TraceStep, t: Token, r: Result<seq<TraceStep>>, ts: seq<Token>)
    requires Records(reg, s, t)
    requires r.Ok? ==> |r.value| == |ts| + 1 && r.value[|r.value| - 1].Final?
    requires r.Ok? ==> forall k :: 0 <= k < |ts| ==> Records(reg, r.value[k], ts[k])
    ensures var q := Then([s], r);
      q.Ok? ==>
        && |q.value| == |[t] + ts| + 1
        && q.value[|q.value| - 1].Final?
        && forall k :: 0 <= k < |[t] + ts| ==> Records(reg, q.value[k], ([t] + ts)[k])
  {
    if r.Ok? {
      var q := Then([s], r);
      assert forall k :: 1 <= k < |q.value| ==> q.value[k] == r.value[k - 1];
    }
  }

  /** The evaluator succeeds exactly when the numbers and operators it acts on fit the stack. */
  lemma {:induction false} EvalFits(reg: Registry, rpn: seq<Token>, stack: seq<int>)
    ensures EvalFrom(reg, rpn, stack).Ok? <==> Fits(reg, Executed(rpn), |stack|)
    decreases |rpn|
  {
    if |rpn| > 0 {
      var t := rpn[0];
      var e := Executed(rpn);
      match t
      case Number(text) =>
        assert e[0] == t && e[1..] == Executed(rpn[1..]);
        if ParseNumeral(text).Some? {
          EvalFits(reg, rpn[1..], stack + [ParseNumeral(text).value]);
        }
      case Operator(sym) =>
        assert e[0] == t && e[1..] == Executed(rpn[1..]);
        if sym in reg && |stack| >= reg[sym].arity >= 2 {
          var n := reg[sym].arity;
          var v := Operate(reg[sym], stack[|stack| - n..]);
          EvalFits(reg, rpn[1..], stack[..|stack| - n] + [v.value]);
        }
      case _ =>
        assert e == Executed(rpn[1..]);
        EvalFits(reg, rpn[1..], stack);
    }
  }

  /**
   * The two evaluation paths agree. Where building a tree succeeds from a stack of trees, evaluating
   * directly from the stack of their values succeeds as well and ends with the tree's value, whenever
   * each operator's evaluator computes what its creator's node does.
   */
  lemma {:induction false} EvalAgrees(reg: Registry, rpn: seq<Token>, trees: seq<Expr>, values: seq<int>)
    requires Consistent(reg)
    requires |values| == |trees| && forall k :: 0 <= k < |trees| ==> values[k] == Interpret(trees[k])
    ensures var b := BuildFrom(reg, rpn, trees);
      var r := EvalFrom(reg, rpn, values);
      b.Ok? ==> r.Ok? && |r.value| > 0 && r.value[|r.value| - 1] == Final(Interpret(b.value))
    decreases |rpn|, 1
  {
    if |rpn| > 0 {
      match rpn[0]
      case Number(_) =>
        EvalAgreesPush(reg, rpn, trees, values);
      case Operator(_) =>
        EvalAgreesApply(reg, rpn, trees, values);
      case _ =>
    }
  }

  /** Pushing a number keeps each stacked value the value of its stacked tree. */
  lemma {:induction false} EvalAgreesPush(reg: Registry, rpn: seq<Token>, trees: seq<Expr>, values: seq<int>)
    requires Consistent(reg) && |rpn| > 0 && rpn[0].Number?
    requires |values| == |trees| && forall k :: 0 <= k < |trees| ==> values[k] == Interpret(trees[k])
    ensures var b := BuildFrom(reg, rpn, trees);
      var r := EvalFrom(reg, rpn, values);
      b.Ok? ==> r.Ok? && |r.value| > 0 && r.value[|r.value| - 1] == Final(Interpret(b.value))
    decreases |rpn|, 0
  {
    var text := rpn[0].text;
    if ParseNumeral(text).Some? {
      var v := ParseNumeral(text).value;
      assert BuildFrom(reg, rpn, trees) == BuildFrom(reg, rpn[1..], trees + [Num(v)]);
      assert EvalFrom(reg, rpn, values) == Then([Push(text)], EvalFrom(reg, rpn[1..], values + [v]));
      EvalAgrees(reg, rpn[1..], trees + [Num(v)], values + [v]);
    }
  }

  /** One operator application keeps each stacked value the value of its stacked tree. */
  lemma {:induction false} EvalAgreesApply(reg: Registry, rpn: seq<Token>, trees: seq<Expr>, values: seq<int>)
    requires Consistent(reg) && |rpn| > 0 && rpn[0].Operator?
    requires |values| == |trees| && forall k :: 0 <= k < |trees| ==> values[k] == Interpret(trees[k])
    ensures var b := BuildFrom(reg, rpn, trees);
      var r := EvalFrom(reg, rpn, values);
      b.Ok? ==> r.Ok? && |r.value| > 0 && r.value[|r.value| - 1] == Final(Interpret(b.value))
    decreases |rpn|, 0
  {
    var sym := rpn[0].symbol;
    if sym in reg && |trees| >= reg[sym].arity >= 2 {
      var entry := reg[sym];
      var n := entry.arity;
      assert Popped(n) == n;
      var below, args := trees[..|trees| - n], trees[|trees| - n..];
      var vbelow, vargs := values[..|values| - n], values[|values| - n..];
      var node := Create(entry.creator, args);
      var v := Operate(entry, vargs);
      assert vargs[0] == Interpret(args[0]) && vargs[1] == Interpret(args[1]);
      assert entry.evaluator.None? || entry.evaluator.value == entry.creator;
      assert v.value == Interpret(node.value);
      assert BuildFrom(reg, rpn, trees) == BuildFrom(reg, rpn[1..], below + [node.value]);
      assert EvalFrom(reg, rpn, values) == Then([Applied(sym, vargs, v.value)], EvalFrom(reg, rpn[1..], vbelow + [v.value]));
      EvalAgrees(reg, rpn[1..], below + [node.value], vbelow + [v.value]);
    }
  }

  /** The evaluator's result line reports what interpreting the built tree gives. */
  lemma EvaluationAgrees(reg: Registry, rpn: seq<Token>)
    requires Consistent(reg)
    ensures var b := Build(reg, rpn);
      var r := Evaluation(reg, rpn);
      b.Ok? ==> r.Ok? && |r.value| > 0 && r.value[|r.value| - 1] == Final(Interpret(b.value))
  {
    EvalAgrees(reg, rpn, [], []);
  }
}
