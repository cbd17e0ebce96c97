/** What the conversion promises: which tokens it outputs, when it fails, and how it orders operators. */
module ShuntingYardProperties {
  import opened Outcomes
  import opened Tokens
  import opened Operators
  import opened ShuntingYard

  /** How often `x` occurs in `s`. */
  function Count(s: seq<Token>, x: Token): nat
  {
    if |s| == 0 then 0 else Count(s[..|s| - 1], x) + (if s[|s| - 1] == x then 1 else 0)
  }

  /** The number tokens, in their order. */
  function Numbers(s: seq<Token>): seq<Token>
  {
    if |s| == 0 then [] else Numbers(s[..|s| - 1]) + (if s[|s| - 1].Number? then [s[|s| - 1]] else [])
  }

  lemma {:induction false} CountAppend(a: seq<Token>, b: seq<Token>, x: Token)
    ensures Count(a + b, x) == Count(a, x) + Count(b, x)
    decreases |b|
  {
    if |b| == 0 {
      assert a + b == a;
    } else {
      assert (a + b)[..|a + b| - 1] == a + b[..|b| - 1];
      CountAppend(a, b[..|b| - 1], x);
    }
  }

  lemma {:induction false} NumbersAppend(a: seq<Token>, b: seq<Token>)
    ensures Numbers(a + b) == Numbers(a) + Numbers(b)
    decreases |b|
  {
    if |b| == 0 {
      assert a + b == a;
    } else {
      assert (a + b)[..|a + b| - 1] == a + b[..|b| - 1];
      NumbersAppend(a, b[..|b| - 1]);
    }
  }

  /** Moving tokens from the stack to the output keeps every token's total count. */
  predicate Moved(x: Token, output: seq<Token>, stack: seq<Token>, output': seq<Token>, stack': seq<Token>)
  {
    Count(output', x) + Count(stack', x) == Count(output, x) + Count(stack, x)
  }

  /** Moving operators to the output adds no number, keeps the numbers' order and adds no parenthesis. */
  predicate Grows(output: seq<Token>, output': seq<Token>)
  {
    Numbers(output') == Numbers(output) && (NoParens(output) ==> NoParens(output'))
  }

  /** Moving the operator on top of the stack to the output. */
  lemma MoveTop(reg: Registry, x: Token, output: seq<Token>, stack: seq<Token>)
    requires StackTokens(reg, stack) && |stack| > 0 && stack[|stack| - 1].Operator?
    ensures Moved(x, output, stack, output + [stack[|stack| - 1]], stack[..|stack| - 1])
    ensures Grows(output, output + [stack[|stack| - 1]])
  {
    var top := stack[|stack| - 1];
    assert (output + [top])[..|output|] == output;
  }

  lemma {:induction false} PopOperatorsMoves(reg: Registry, x: Token, o1: OperatorEntry, output: seq<Token>, stack: seq<Token>)
    requires StackTokens(reg, stack)
    ensures var r := PopOperators(reg, o1, output, stack);
      Moved(x, output, stack, r.0, r.1) && Grows(output, r.0)
    decreases |stack|
  {
    if |stack| > 0 && stack[|stack| - 1].Operator? && PopsBefore(o1, reg[stack[|stack| - 1].symbol]) {
      MoveTop(reg, x, output, stack);
      StackTokensPrefix(reg, stack, |stack| - 1);
      PopOperatorsMoves(reg, x, o1, output + [stack[|stack| - 1]], stack[..|stack| - 1]);
    }
  }

  lemma {:induction false} PopToParenMoves(reg: Registry, x: Token, output: seq<Token>, stack: seq<Token>)
    requires StackTokens(reg, stack) && Emitted(x)
    ensures var r := PopToParen(output, stack);
      r.Ok? ==> Moved(x, output, stack, r.value.0, r.value.1) && Grows(output, r.value.0)
    decreases |stack|
  {
    if |stack| > 0 && !stack[|stack| - 1].LeftParen? {
      MoveTop(reg, x, output, stack);
      StackTokensPrefix(reg, stack, |stack| - 1);
      PopToParenMoves(reg, x, output + [stack[|stack| - 1]], stack[..|stack| - 1]);
    }
  }

  lemma {:induction false} DrainMoves(reg: Registry, x: Token, output: seq<Token>, stack: seq<Token>)
    requires StackTokens(reg, stack)
    ensures var r := Drain(output, stack);
      r.Ok? ==> Moved(x, output, stack, r.value, []) && Grows(output, r.value)
    decreases |stack|
  {
    if |stack| > 0 && !stack[|stack| - 1].LeftParen? {
      MoveTop(reg, x, output, stack);
      StackTokensPrefix(reg, stack, |stack| - 1);
      DrainMoves(reg, x, output + [stack[|stack| - 1]], stack[..|stack| - 1]);
    }
  }

  /** What one input token adds to the output and the stack, counted for a number or operator `x`. */
  lemma StepMoves(reg: Registry, x: Token, t: Token, output: seq<Token>, stack: seq<Token>)
    requires StackTokens(reg, stack) && Emitted(x)
    ensures var r := Step(reg, t, output, stack);
      r.Ok? ==> Count(r.value.0, x) + Count(r.value.1, x) == Count(output, x) + Count(stack, x) + Count([t], x)
  {
    assert [t][..0] == [];
    match t
    case Number(_) =>
      assert (output + [t])[..|output|] == output;
    case Operator(sym) =>
      if sym in reg {
        PopOperatorsMoves(reg, x, reg[sym], output, stack);
        var (out', stack') := PopOperators(reg, reg[sym], output, stack);
        assert (stack' + [t])[..|stack'|] == stack';
      }
    case LeftParen =>
      assert (stack + [t])[..|stack|] == stack;
    case RightParen =>
      PopToParenMoves(reg, x, output, stack);
  }

  /** One input token adds its own number, if it is one, to the output's numbers, and no parenthesis. */
  lemma StepNumbers(reg: Registry, t: Token, output: seq<Token>, stack: seq<Token>)
    requires StackTokens(reg, stack)
    ensures var r := Step(reg, t, output, stack);
      r.Ok? ==> Numbers(r.value.0) == Numbers(output) + Numbers([t]) && (NoParens(output) ==> NoParens(r.value.0))
  {
    assert [t][..0] == [];
    match t
    case Number(_) =>
      assert (output + [t])[..|output|] == output;
    case Operator(sym) =>
      if sym in reg {
        PopOperatorsMoves(reg, t, reg[sym], output, stack);
      }
    case LeftParen =>
    case RightParen =>
      PopToParenMoves(reg, Number(""), output, stack);
  }

  lemma {:induction false} ConvertCounts(reg: Registry, x: Token, tokens: seq<Token>, output: seq<Token>, stack: seq<Token>)
    requires StackTokens(reg, stack) && Emitted(x)
    ensures var r := Convert(reg, tokens, output, stack);
      r.Ok? ==> Count(r.value, x) == Count(output, x) + Count(stack, x) + Count(tokens, x)
    decreases |tokens|
  {
    var r := Convert(reg, tokens, output, stack);
    if r.Ok? {
      if |tokens| == 0 {
        DrainMoves(reg, x, output, stack);
      } else {
        var st := Step(reg, tokens[0], output, stack);
        StepMoves(reg, x, tokens[0], output, stack);
        ConvertCounts(reg, x, tokens[1..], st.value.0, st.value.1);
        assert tokens == [tokens[0]] + tokens[1..];
        CountAppend([tokens[0]], tokens[1..], x);
      }
    }
  }

  lemma {:induction false} ConvertNumbers(reg: Registry, tokens: seq<Token>, output: seq<Token>, stack: seq<Token>)
    requires StackTokens(reg, stack)
    ensures var r := Convert(reg, tokens, output, stack); r.Ok? ==> Numbers(r.value) == Numbers(output) + Numbers(tokens)
    decreases |tokens|
  {
    var r := Convert(reg, tokens, output, stack);
    if r.Ok? {
      if |tokens| == 0 {
        DrainMoves(reg, LeftParen, output, stack);
      } else {
        var st := Step(reg, tokens[0], output, stack);
        assert st.Ok?;
        var out', stack' := st.value.0, st.value.1;
        assert r == Convert(reg, tokens[1..], out', stack');
        StepNumbers(reg, tokens[0], output, stack);
        ConvertNumbers(reg, tokens[1..], out', stack');
        assert tokens == [tokens[0]] + tokens[1..];
        NumbersAppend([tokens[0]], tokens[1..]);
      }
    }
  }

  lemma {:induction false} ConvertNoParens(reg: Registry, tokens: seq<Token>, output: seq<Token>, stack: seq<Token>)
    requires StackTokens(reg, stack) && NoParens(output)
    ensures var r := Convert(reg, tokens, output, stack); r.Ok? ==> NoParens(r.value)
    decreases |tokens|
  {
    var r := Convert(reg, tokens, output, stack);
    if r.Ok? {
      if |tokens| == 0 {
        DrainMoves(reg, LeftParen, output, stack);
      } else {
        var st := Step(reg, tokens[0], output, stack);
        assert st.Ok?;
        var out', stack' := st.value.0, st.value.1;
        assert r == Convert(reg, tokens[1..], out', stack');
        StepNumbers(reg, tokens[0], output, stack);
        ConvertNoParens(reg, tokens[1..], out', stack');
      }
    }
  }

  /**
   * The postfix output holds no parenthesis, every number and operator token exactly as often as
   * the input does, and the number tokens in their input order.
   */
  lemma PostfixContents(reg: Registry, tokens: seq<Token>)
    ensures var r := Postfix(reg, tokens);
      r.Ok? ==>
        && NoParens(r.value)
        && Numbers(r.value) == Numbers(tokens)
        && forall x :: Emitted(x) ==> Count(r.value, x) == Count(tokens, x)
  {
    ConvertNumbers(reg, tokens, [], []);
    ConvertNoParens(reg, tokens, [], []);
    forall x | Emitted(x)
      ensures Postfix(reg, tokens).Ok? ==> Count(Postfix(reg, tokens).value, x) == Count(tokens, x)
    {
      ConvertCounts(reg, x, tokens, [], []);
    }
  }

  /** Only operators leave the stack for an incoming operator: the open parentheses stay. */
  lemma {:induction false} PopOperatorsDepth(reg: Registry, o1: OperatorEntry, output: seq<Token>, stack: seq<Token>)
    requires StackTokens(reg, stack)
    ensures Count(PopOperators(reg, o1, output, stack).1, LeftParen) == Count(stack, LeftParen)
    decreases |stack|
  {
    if |stack| > 0 && stack[|stack| - 1].Operator? && PopsBefore(o1, reg[stack[|stack| - 1].symbol]) {
      StackTokensPrefix(reg, stack, |stack| - 1);
      PopOperatorsDepth(reg, o1, output + [stack[|stack| - 1]], stack[..|stack| - 1]);
    }
  }

  /** A right parenthesis succeeds exactly when a left parenthesis is open, and closes one. */
  lemma {:induction false} PopToParenDepth(reg: Registry, output: seq<Token>, stack: seq<Token>)
    requires StackTokens(reg, stack)
    ensures PopToParen(output, stack).Ok? <==> Count(stack, LeftParen) > 0
    ensures PopToParen(output, stack).Ok? ==>
      Count(PopToParen(output, stack).value.1, LeftParen) == Count(stack, LeftParen) - 1
    decreases |stack|
  {
    if |stack| > 0 && !stack[|stack| - 1].LeftParen? {
      StackTokensPrefix(reg, stack, |stack| - 1);
      PopToParenDepth(reg, output + [stack[|stack| - 1]], stack[..|stack| - 1]);
    }
  }

  /** The end of input succeeds exactly when no left parenthesis is open. */
  lemma {:induction false} DrainDepth(reg: Registry, output: seq<Token>, stack: seq<Token>)
    requires StackTokens(reg, stack)
    ensures Drain(output, stack).Ok? <==> Count(stack, LeftParen) == 0
    decreases |stack|
  {
    if |stack| > 0 && !stack[|stack| - 1].LeftParen? {
      StackTokensPrefix(reg, stack, |stack| - 1);
      DrainDepth(reg, output + [stack[|stack| - 1]], stack[..|stack| - 1]);
    }
  }

  /** Every `)` closes an earlier unclosed `(`, and with `depth` parentheses already open all are closed at the end. */
  predicate BalancedFrom(depth: nat, tokens: seq<Token>)
    decreases |tokens|
  {
    if |tokens| == 0 then depth == 0
    else match tokens[0]
      case LeftParen => BalancedFrom(depth + 1, tokens[1..])
      case RightParen => depth > 0 && BalancedFrom(depth - 1, tokens[1..])
      case _ => BalancedFrom(depth, tokens[1..])
  }

  predicate OperatorsRegistered(reg: Registry, tokens: seq<Token>)
  {
    forall k :: 0 <= k < |tokens| && tokens[k].Operator? ==> tokens[k].symbol in reg
  }

  lemma OperatorsRegisteredRest(reg: Registry, tokens: seq<Token>)
    requires |tokens| > 0 && OperatorsRegistered(reg, tokens)
    ensures tokens[0].Operator? ==> tokens[0].symbol in reg
    ensures OperatorsRegistered(reg, tokens[1..])
  {
    forall k | 0 <= k < |tokens| - 1 && tokens[1..][k].Operator? ensures tokens[1..][k].symbol in reg {
      assert tokens[1..][k] == tokens[k + 1];
    }
  }

  /** Open parentheses on the stack after one token: `(` opens one, `)` closes one and fails when none is open. */
  lemma StepDepth(reg: Registry, t: Token, output: seq<Token>, stack: seq<Token>)
    requires StackTokens(reg, stack) && (t.Operator? ==> t.symbol in reg)
    ensures var d, r := Count(stack, LeftParen), Step(reg, t, output, stack);
      (r.Ok? <==> !(t.RightParen? && d == 0))
      && (r.Err? ==> r.error == MismatchedParentheses)
      && (r.Ok? ==> Count(r.value.1, LeftParen) == if t.LeftParen? then d + 1 else if t.RightParen? then d - 1 else d)
  {
    if t.RightParen? {
      PopToParenDepth(reg, output, stack);
    } else if t.Operator? {
      PopOperatorsDepth(reg, reg[t.symbol], output, stack);
      var stack' := PopOperators(reg, reg[t.symbol], output, stack).1;
      assert (stack' + [t])[..|stack'|] == stack';
    } else if t.LeftParen? {
      assert (stack + [t])[..|stack|] == stack;
    }
  }

  /**
   * With every operator registered, the conversion fails exactly when the parentheses are unbalanced,
   * and then with MismatchedParentheses: a `)` with no open `(`, or a `(` still open at the end.
   */
  lemma {:induction false} ConvertBalance(reg: Registry, tokens: seq<Token>, output: seq<Token>, stack: seq<Token>)
    requires StackTokens(reg, stack) && OperatorsRegistered(reg, tokens)
    ensures Convert(reg, tokens, output, stack).Ok? <==> BalancedFrom(Count(stack, LeftParen), tokens)
    ensures Convert(reg, tokens, output, stack).Err? ==> Convert(reg, tokens, output, stack).error == MismatchedParentheses
    decreases |tokens|
  {
    if |tokens| == 0 {
      DrainDepth(reg, output, stack);
    } else {
      var t, rest := tokens[0], tokens[1..];
      OperatorsRegisteredRest(reg, tokens);
      var st := Step(reg, t, output, stack);
      StepDepth(reg, t, output, stack);
      if st.Ok? {
        var out', stack' := st.value.0, st.value.1;
        assert Convert(reg, tokens, output, stack) == Convert(reg, rest, out', stack');
        ConvertBalance(reg, rest, out', stack');
      } else {
        assert Convert(reg, tokens, output, stack) == Err(st.error);
      }
    }
  }

  /** A conversion error is a parenthesis mismatch or an input operator that is not registered. */
  lemma {:induction false} ConvertError(reg: Registry, tokens: seq<Token>, output: seq<Token>, stack: seq<Token>)
    requires StackTokens(reg, stack)
    ensures var r := Convert(reg, tokens, output, stack);
      r.Err? ==> r.error == MismatchedParentheses
                 || (r.error.UnknownOperator? && Operator(r.error.symbol) in tokens && r.error.symbol !in reg)
    decreases |tokens|
  {
    if |tokens| > 0 {
      var st := Step(reg, tokens[0], output, stack);
      if st.Ok? {
        ConvertError(reg, tokens[1..], st.value.0, st.value.1);
        var r := Convert(reg, tokens[1..], st.value.0, st.value.1);
        if r.Err? && r.error.UnknownOperator? && Operator(r.error.symbol) in tokens[1..] {
          var k :| 0 <= k < |tokens[1..]| && tokens[1..][k] == Operator(r.error.symbol);
          assert tokens[k + 1] == Operator(r.error.symbol);
        }
      } else {
        assert tokens[0] in tokens;
      }
    }
  }

  /** The postfix conversion fails on unbalanced parentheses and only on them, once every operator is registered. */
  lemma PostfixMismatch(reg: Registry, tokens: seq<Token>)
    requires OperatorsRegistered(reg, tokens)
    ensures Postfix(reg, tokens).Ok? <==> BalancedFrom(0, tokens)
    ensures Postfix(reg, tokens).Err? ==> Postfix(reg, tokens).error == MismatchedParentheses
  {
    ConvertBalance(reg, tokens, [], []);
  }

  /** Operator `upper` may sit directly above `lower` on the stack: it binds tighter, or as tight and to the right. */
  predicate Above(upper: OperatorEntry, lower: OperatorEntry)
  {
    upper.precedence > lower.precedence || (upper.precedence == lower.precedence && upper.rightAssociative)
  }

  /** Between parentheses, each stacked operator sits directly above one it may sit above. */
  predicate StackOrdered(reg: Registry, stack: seq<Token>)
  {
    && StackTokens(reg, stack)
    && forall k :: 0 < k < |stack| && stack[k - 1].Operator? && stack[k].Operator?
         ==> Above(reg[stack[k].symbol], reg[stack[k - 1].symbol])
  }

  /**
   * Each input token keeps the operator stack ordered. In particular two left-associative
   * operators of equal precedence are never stacked together: the earlier one is output first.
   */
  lemma StepKeepsOrder(reg: Registry, t: Token, output: seq<Token>, stack: seq<Token>)
    requires StackOrdered(reg, stack)
    ensures Step(reg, t, output, stack).Ok? ==> StackOrdered(reg, Step(reg, t, output, stack).value.1)
  {
    match t
    case Operator(sym) =>
      if sym in reg {
        var (out', stack') := PopOperators(reg, reg[sym], output, stack);
        StackTokensPrefix(reg, stack, |stack'|);
        assert forall k :: 0 <= k < |stack'| ==> stack'[k] == stack[k];
      }
    case RightParen =>
      PopToParenKeeps(reg, output, stack);
      var p := PopToParen(output, stack);
      if p.Ok? {
        assert forall k :: 0 <= k < |p.value.1| ==> p.value.1[k] == stack[k];
      }
    case _ =>
  }
}
