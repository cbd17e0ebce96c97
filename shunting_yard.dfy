/** Dijkstra's shunting-yard conversion of infix tokens to postfix order, driven by the registry. */
module ShuntingYard {
  import opened Outcomes
  import opened Tokens
  import opened Operators
  import opened Sequences

  /** The operator stack holds only left parentheses and registered operators. The top is the last element. */
  predicate StackTokens(reg: Registry, stack: seq<Token>)
  {
    forall k :: 0 <= k < |stack| ==> stack[k].LeftParen? || (stack[k].Operator? && stack[k].symbol in reg)
  }

  /** The incoming operator `o1` makes the stacked operator `o2` go to the output first. */
  predicate PopsBefore(o1: OperatorEntry, o2: OperatorEntry)
  {
    (o1.rightAssociative && o1.precedence < o2.precedence) || (!o1.rightAssociative && o1.precedence <= o2.precedence)
  }

  /** Every entry of `popped` is a registered operator that the incoming operator `o1` makes go first. */
  predicate AllPopBefore(reg: Registry, o1: OperatorEntry, popped: seq<Token>)
  {
    forall k :: 0 <= k < |popped| ==> popped[k].Operator? && popped[k].symbol in reg && PopsBefore(o1, reg[popped[k].symbol])
  }

  /**
   * Moves stacked operators to the output while the incoming operator `o1` makes them go first.
   * What remains is a bottom part of the stack whose top entry, if an operator, stays.
   */
  function PopOperators(reg: Registry, o1: OperatorEntry, output: seq<Token>, stack: seq<Token>): (r: (seq<Token>, seq<Token>))
    requires StackTokens(reg, stack)
    ensures |r.1| <= |stack| && r.1 == stack[..|r.1|]
    ensures |r.1| > 0 && r.1[|r.1| - 1].Operator? ==> !PopsBefore(o1, reg[r.1[|r.1| - 1].symbol])
    decreases |stack|
  {
    if |stack| > 0 && stack[|stack| - 1].Operator? && PopsBefore(o1, reg[stack[|stack| - 1].symbol]) then
      PopOperators(reg, o1, output + [stack[|stack| - 1]], stack[..|stack| - 1])
    else
      (output, stack)
  }

  /** The popped top part of the stack goes to the output top first. */
  lemma {:induction false} PopOperatorsOutput(reg: Registry, o1: OperatorEntry, output: seq<Token>, stack: seq<Token>)
    requires StackTokens(reg, stack)
    ensures var r := PopOperators(reg, o1, output, stack); r.0 == output + Reversed(stack[|r.1|..])
    decreases |stack|
  {
    var r := PopOperators(reg, o1, output, stack);
    if |stack| > 0 && stack[|stack| - 1].Operator? && PopsBefore(o1, reg[stack[|stack| - 1].symbol]) {
      var rest := stack[..|stack| - 1];
      StackTokensPrefix(reg, stack, |rest|);
      PopOperatorsOutput(reg, o1, output + [stack[|stack| - 1]], rest);
      assert r == PopOperators(reg, o1, output + [stack[|stack| - 1]], rest);
      ReversedSuffixLast(stack, |r.1|);
    } else {
      assert stack[|r.1|..] == [];
    }
  }

  /** Every popped entry is an operator that `o1` makes go first. */
  lemma {:induction false} PopOperatorsPopped(reg: Registry, o1: OperatorEntry, output: seq<Token>, stack: seq<Token>)
    requires StackTokens(reg, stack)
    ensures var r := PopOperators(reg, o1, output, stack); AllPopBefore(reg, o1, stack[|r.1|..])
    decreases |stack|
  {
    var r := PopOperators(reg, o1, output, stack);
    if |stack| > 0 && stack[|stack| - 1].Operator? && PopsBefore(o1, reg[stack[|stack| - 1].symbol]) {
      var rest := stack[..|stack| - 1];
      StackTokensPrefix(reg, stack, |rest|);
      PopOperatorsPopped(reg, o1, output + [stack[|stack| - 1]], rest);
      assert r == PopOperators(reg, o1, output + [stack[|stack| - 1]], rest);
      assert stack[|r.1|..] == rest[|r.1|..] + [stack[|stack| - 1]];
    }
  }

  /**
   * At a right parenthesis: moves operators to the output, top first, down to the nearest left
   * parenthesis, which is dropped. Without a left parenthesis on the stack it fails.
   */
  function PopToParen(output: seq<Token>, stack: seq<Token>): (r: Result<(seq<Token>, seq<Token>)>)
    ensures r.Ok? ==> |r.value.1| < |stack| && r.value.1 == stack[..|r.value.1|]
    ensures r.Ok? ==> stack[|r.value.1|].LeftParen? && forall k :: |r.value.1| < k < |stack| ==> !stack[k].LeftParen?
    ensures r.Ok? ==> r.value.0 == output + Reversed(stack[|r.value.1| + 1..])
    ensures r.Err? ==> r.error == MismatchedParentheses && forall k :: 0 <= k < |stack| ==> !stack[k].LeftParen?
    decreases |stack|
  {
    if |stack| == 0 then Err(MismatchedParentheses)
    else if stack[|stack| - 1].LeftParen? then
      assert stack[|stack|..] == [];
      Ok((output, stack[..|stack| - 1]))
    else
      var r := PopToParen(output + [stack[|stack| - 1]], stack[..|stack| - 1]);
      if r.Ok? then
        ReversedSuffixLast(stack, |r.value.1| + 1);
        r
      else
        r
  }

  /**
   * At the end of the input: moves every remaining entry to the output, top first. It succeeds
   * exactly when no parenthesis is left on the stack.
   */
  function Drain(output: seq<Token>, stack: seq<Token>): (r: Result<seq<Token>>)
    ensures r.Ok? <==> forall k :: 0 <= k < |stack| ==> !stack[k].LeftParen? && !stack[k].RightParen?
    ensures r.Ok? ==> r.value == output + Reversed(stack)
    ensures r.Err? ==> r.error == MismatchedParentheses
    decreases |stack|
  {
    if |stack| == 0 then Ok(output)
    else if stack[|stack| - 1].LeftParen? || stack[|stack| - 1].RightParen? then Err(MismatchedParentheses)
    else
      ReversedLast(stack);
      Drain(output + [stack[|stack| - 1]], stack[..|stack| - 1])
  }

  lemma StackTokensPrefix(reg: Registry, stack: seq<Token>, n: nat)
    requires StackTokens(reg, stack) && n <= |stack|
    ensures StackTokens(reg, stack[..n])
  {
  }

  /** What one input token does to the output and the operator stack. */
  function Step(reg: Registry, t: Token, output: seq<Token>, stack: seq<Token>): (r: Result<(seq<Token>, seq<Token>)>)
    requires StackTokens(reg, stack)
    ensures r.Ok? ==> StackTokens(reg, r.value.1)
    ensures r.Ok? ==> |r.value.0| + |r.value.1| <= |output| + |stack| + 1
  {
    match t
    case Number(_) => Ok((output + [t], stack))
    case Operator(sym) =>
      if sym !in reg then Err(UnknownOperator(sym))
      else
        var (out', stack') := PopOperators(reg, reg[sym], output, stack);
        PopOperatorsOutput(reg, reg[sym], output, stack);
        StackTokensPrefix(reg, stack, |stack'|);
        Ok((out', stack' + [t]))
    case LeftParen => Ok((output, stack + [t]))
    case RightParen => PopToParenKeeps(reg, output, stack); PopToParen(output, stack)
  }

  lemma {:induction false} PopToParenKeeps(reg: Registry, output: seq<Token>, stack: seq<Token>)
    requires StackTokens(reg, stack)
    ensures PopToParen(output, stack).Ok? ==> StackTokens(reg, PopToParen(output, stack).value.1)
    decreases |stack|
  {
    if |stack| > 0 && !stack[|stack| - 1].LeftParen? {
      PopToParenKeeps(reg, output + [stack[|stack| - 1]], stack[..|stack| - 1]);
    }
  }

  /**
   * The conversion of the remaining tokens from the given output and operator stack. Every token
   * adds at most one entry, so the result is no longer than everything it was made from.
   */
  function Convert(reg: Registry, tokens: seq<Token>, output: seq<Token>, stack: seq<Token>): (r: Result<seq<Token>>)
    requires StackTokens(reg, stack)
    ensures r.Ok? ==> |r.value| <= |output| + |stack| + |tokens|
    decreases |tokens|
  {
    if |tokens| == 0 then Drain(output, stack)
    else match Step(reg, tokens[0], output, stack)
      case Err(e) => Err(e)
      case Ok((out', stack')) => Convert(reg, tokens[1..], out', stack')
  }

  /** The postfix form of a token sequence; parentheses are dropped, so it is never longer than the input. */
  function Postfix(reg: Registry, tokens: seq<Token>): (r: Result<seq<Token>>)
    ensures r.Ok? ==> |r.value| <= |tokens|
  {
    Convert(reg, tokens, [], [])
  }

  method ToRPN(reg: Registry, tokens: seq<Token>) returns (r: Result<seq<Token>>)
    ensures r == Postfix(reg, tokens)
  {
    var output: seq<Token> := [];
    var opStack: seq<Token> := [];
    for k := 0 to |tokens|
      invariant StackTokens(reg, opStack)
      invariant Postfix(reg, tokens) == Convert(reg, tokens[k..], output, opStack)
    {
      var t := tokens[k];
      assert tokens[k..][1..] == tokens[k + 1..];
      match t {
        case Number(_) =>
          output := output + [t];
        case Operator(sym) =>
          if sym !in reg {
            return Err(UnknownOperator(sym));
          }
          var o1 := reg[sym];
          ghost var before := PopOperators(reg, o1, output, opStack);
          while |opStack| > 0 && opStack[|opStack| - 1].Operator?
            invariant StackTokens(reg, opStack)
            invariant PopOperators(reg, o1, output, opStack) == before
            decreases |opStack|
          {
            var o2 := reg[opStack[|opStack| - 1].symbol];
            if PopsBefore(o1, o2) {
              output := output + [opStack[|opStack| - 1]];
              opStack := opStack[..|opStack| - 1];
            } else {
              break;
            }
          }
          opStack := opStack + [t];
        case LeftParen =>
          opStack := opStack + [t];
        case RightParen =>
          ghost var after := PopToParen(output, opStack);
          PopToParenKeeps(reg, output, opStack);
          while |opStack| > 0 && !opStack[|opStack| - 1].LeftParen?
            invariant PopToParen(output, opStack) == after
            decreases |opStack|
          {
            output := output + [opStack[|opStack| - 1]];
            opStack := opStack[..|opStack| - 1];
          }
          if |opStack| == 0 || !opStack[|opStack| - 1].LeftParen? {
            return Err(MismatchedParentheses);
          }
          opStack := opStack[..|opStack| - 1];
      }
    }
    while |opStack| > 0
      invariant Postfix(reg, tokens) == Drain(output, opStack)
      decreases |opStack|
    {
      var tk := opStack[|opStack| - 1];
      opStack := opStack[..|opStack| - 1];
      if tk.LeftParen? || tk.RightParen? {
        return Err(MismatchedParentheses);
      }
      output := output + [tk];
    }
    return Ok(output);
  }
}
