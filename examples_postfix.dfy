/** Worked conversions to postfix with the built-in operators and with a changed precedence. */
module ShuntingYardExamples {
  import opened Outcomes
  import opened Tokens
  import opened Expressions
  import opened Operators
  import opened ShuntingYard
  import opened ShuntingYardProperties
  import opened TokenizerExamples

  /** One token of a conversion, with the rest of the conversion given. */
  lemma ConvertStep(reg: Registry, tokens: seq<Token>, output: seq<Token>, stack: seq<Token>,
                    output': seq<Token>, stack': seq<Token>, r: Result<seq<Token>>)
    requires StackTokens(reg, stack) && StackTokens(reg, stack') && |tokens| > 0
    requires Step(reg, tokens[0], output, stack) == Ok((output', stack'))
    requires Convert(reg, tokens[1..], output', stack') == r
    ensures Convert(reg, tokens, output, stack) == r
  {
  }

  /** The postfix form of the default input. */
  const DefaultRPN := [Number("10"), Number("5"), Operator("-"), Number("8"), Operator("+"), Number("2"), Operator("+")]

  /** Both built-in operators have precedence 1 and associate to the left. */
  lemma BuiltinPrecedences()
    ensures "+" in Builtins() && Builtins()["+"].precedence == 1 && !Builtins()["+"].rightAssociative
    ensures "-" in Builtins() && Builtins()["-"].precedence == 1
  {
  }

  /** At the end of the input the "+" left on the stack goes to the output. */
  lemma PostfixFrom7()
    ensures Convert(Builtins(), DefaultTokens[7..], DefaultRPN[..6], [Operator("+")]) == Ok(DefaultRPN)
  {
    assert DefaultTokens[7..] == [];
    assert DefaultRPN[..6] + [Operator("+")] == DefaultRPN;
    assert [Operator("+")][..0] == [];
    assert Drain(DefaultRPN, []) == Ok(DefaultRPN);
  }

  lemma PostfixFrom6()
    ensures Convert(Builtins(), DefaultTokens[6..], DefaultRPN[..5], [Operator("+")]) == Ok(DefaultRPN)
  {
    var tokens := DefaultTokens[6..];
    PostfixFrom7();
    assert tokens[0] == Number("2") && tokens[1..] == DefaultTokens[7..];
    assert DefaultRPN[..5] + [Number("2")] == DefaultRPN[..6];
    ConvertStep(Builtins(), tokens, DefaultRPN[..5], [Operator("+")], DefaultRPN[..6], [Operator("+")], Ok(DefaultRPN));
  }

  /** The second "+" sends the first one, of equal precedence, to the output before it goes on the stack. */
  lemma PostfixFrom5()
    ensures Convert(Builtins(), DefaultTokens[5..], DefaultRPN[..4], [Operator("+")]) == Ok(DefaultRPN)
  {
    var reg, tokens := Builtins(), DefaultTokens[5..];
    PostfixFrom6();
    BuiltinPrecedences();
    assert tokens[0] == Operator("+") && tokens[1..] == DefaultTokens[6..];
    assert DefaultRPN[..4] + [Operator("+")] == DefaultRPN[..5];
    assert [Operator("+")][..0] == [] && [] + [Operator("+")] == [Operator("+")];
    assert PopOperators(reg, reg["+"], DefaultRPN[..4], [Operator("+")]) == (DefaultRPN[..5], []);
    ConvertStep(reg, tokens, DefaultRPN[..4], [Operator("+")], DefaultRPN[..5], [Operator("+")], Ok(DefaultRPN));
  }

  lemma PostfixFrom4()
    ensures Convert(Builtins(), DefaultTokens[4..], DefaultRPN[..3], [Operator("+")]) == Ok(DefaultRPN)
  {
    var tokens := DefaultTokens[4..];
    PostfixFrom5();
    assert tokens[0] == Number("8") && tokens[1..] == DefaultTokens[5..];
    assert DefaultRPN[..3] + [Number("8")] == DefaultRPN[..4];
    ConvertStep(Builtins(), tokens, DefaultRPN[..3], [Operator("+")], DefaultRPN[..4], [Operator("+")], Ok(DefaultRPN));
  }

  /** The first "+" sends the "-" before it to the output: operators of one precedence apply left to right. */
  lemma PostfixFrom3()
    ensures Convert(Builtins(), DefaultTokens[3..], DefaultRPN[..2], [Operator("-")]) == Ok(DefaultRPN)
  {
    var reg, tokens := Builtins(), DefaultTokens[3..];
    PostfixFrom4();
    BuiltinPrecedences();
    assert tokens[0] == Operator("+") && tokens[1..] == DefaultTokens[4..];
    assert DefaultRPN[..2] + [Operator("-")] == DefaultRPN[..3];
    assert [Operator("-")][..0] == [] && [] + [Operator("+")] == [Operator("+")];
    assert PopOperators(reg, reg["+"], DefaultRPN[..2], [Operator("-")]) == (DefaultRPN[..3], []);
    ConvertStep(reg, tokens, DefaultRPN[..2], [Operator("-")], DefaultRPN[..3], [Operator("+")], Ok(DefaultRPN));
  }

  lemma PostfixFrom2()
    ensures Convert(Builtins(), DefaultTokens[2..], DefaultRPN[..1], [Operator("-")]) == Ok(DefaultRPN)
  {
    var tokens := DefaultTokens[2..];
    PostfixFrom3();
    assert tokens[0] == Number("5") && tokens[1..] == DefaultTokens[3..];
    assert DefaultRPN[..1] + [Number("5")] == DefaultRPN[..2];
    ConvertStep(Builtins(), tokens, DefaultRPN[..1], [Operator("-")], DefaultRPN[..2], [Operator("-")], Ok(DefaultRPN));
  }

  /** The "-" meets an empty stack and goes on it. */
  lemma PostfixFrom1()
    ensures Convert(Builtins(), DefaultTokens[1..], DefaultRPN[..1], []) == Ok(DefaultRPN)
  {
    var reg, tokens := Builtins(), DefaultTokens[1..];
    PostfixFrom2();
    assert tokens[0] == Operator("-") && tokens[1..] == DefaultTokens[2..];
    assert PopOperators(reg, reg["-"], DefaultRPN[..1], []) == (DefaultRPN[..1], []);
    assert [] + [Operator("-")] == [Operator("-")];
    ConvertStep(reg, tokens, DefaultRPN[..1], [], DefaultRPN[..1], [Operator("-")], Ok(DefaultRPN));
  }

  /**
   * "10-5+8+2" in postfix is "10 5 - 8 + 2 +": each operator of the same precedence leaves the
   * stack before the next one goes on, so the operations apply left to right.
   */
  lemma PostfixDefaultInput()
    ensures Postfix(Builtins(), DefaultTokens) == Ok(DefaultRPN)
  {
    PostfixFrom1();
    assert DefaultTokens[0] == Number("10");
    assert [] + [Number("10")] == DefaultRPN[..1];
    ConvertStep(Builtins(), DefaultTokens, [], [], DefaultRPN[..1], [], Ok(DefaultRPN));
  }

  /** "(1+2" and "1+2)": an unclosed or an unopened parenthesis fails the conversion. */
  lemma PostfixUnbalanced()
    ensures Postfix(Builtins(), [LeftParen, Number("1"), Operator("+"), Number("2")]) == Err(MismatchedParentheses)
    ensures Postfix(Builtins(), [Number("1"), Operator("+"), Number("2"), RightParen]) == Err(MismatchedParentheses)
  {
    var reg := Builtins();
    var open := [LeftParen, Number("1"), Operator("+"), Number("2")];
    var close := [Number("1"), Operator("+"), Number("2"), RightParen];
    assert open[1..][1..][1..][1..] == [] && close[1..][1..][1..][1..] == [];
    assert !BalancedFrom(0, open);
    assert !BalancedFrom(0, close);
    PostfixMismatch(reg, open);
    PostfixMismatch(reg, close);
  }

  /** The built-ins with "-" raised to precedence 2. */
  function MinusFirst(): (reg: Registry)
    ensures "+" in reg && "-" in reg && reg["-"].precedence > reg["+"].precedence
  {
    Builtins()["-" := OperatorEntry(2, false, 2, Sub, Some(Sub))]
  }

  /** The tokens of "1+2-3". */
  const MixedTokens := [Number("1"), Operator("+"), Number("2"), Operator("-"), Number("3")]

  /** Their postfix form when "-" binds tighter than "+". */
  const MixedRPN := [Number("1"), Number("2"), Number("3"), Operator("-"), Operator("+")]

  /** At the end of "1+2-3" the stack holds "+" under "-"; the top goes first. */
  lemma PrecedenceFrom5()
    ensures Convert(MinusFirst(), MixedTokens[5..], MixedRPN[..3], [Operator("+"), Operator("-")]) == Ok(MixedRPN)
  {
    var s := [Operator("+"), Operator("-")];
    assert MixedTokens[5..] == [];
    assert MixedRPN[..3] + [Operator("-")] + [Operator("+")] == MixedRPN;
    assert s[..1] == [Operator("+")] && [Operator("+")][..0] == [];
    assert Drain(MixedRPN[..3] + [Operator("-")], [Operator("+")]) == Ok(MixedRPN);
  }

  lemma PrecedenceFrom4()
    ensures Convert(MinusFirst(), MixedTokens[4..], MixedRPN[..2], [Operator("+"), Operator("-")]) == Ok(MixedRPN)
  {
    var s, tokens := [Operator("+"), Operator("-")], MixedTokens[4..];
    PrecedenceFrom5();
    assert tokens[0] == Number("3") && tokens[1..] == MixedTokens[5..];
    assert MixedRPN[..2] + [Number("3")] == MixedRPN[..3];
    ConvertStep(MinusFirst(), tokens, MixedRPN[..2], s, MixedRPN[..3], s, Ok(MixedRPN));
  }

  /** The "-" does not send the lower "+" to the output: it goes on top of it. */
  lemma PrecedenceFrom3()
    ensures Convert(MinusFirst(), MixedTokens[3..], MixedRPN[..2], [Operator("+")]) == Ok(MixedRPN)
  {
    var reg, tokens := MinusFirst(), MixedTokens[3..];
    PrecedenceFrom4();
    assert reg["-"].precedence == 2 && reg["+"].precedence == 1 && !reg["-"].rightAssociative;
    assert tokens[0] == Operator("-") && tokens[1..] == MixedTokens[4..];
    assert PopOperators(reg, reg["-"], MixedRPN[..2], [Operator("+")]) == (MixedRPN[..2], [Operator("+")]);
    assert [Operator("+")] + [Operator("-")] == [Operator("+"), Operator("-")];
    ConvertStep(reg, tokens, MixedRPN[..2], [Operator("+")], MixedRPN[..2], [Operator("+"), Operator("-")], Ok(MixedRPN));
  }

  lemma PrecedenceFrom2()
    ensures Convert(MinusFirst(), MixedTokens[2..], MixedRPN[..1], [Operator("+")]) == Ok(MixedRPN)
  {
    var tokens := MixedTokens[2..];
    PrecedenceFrom3();
    assert tokens[0] == Number("2") && tokens[1..] == MixedTokens[3..];
    assert MixedRPN[..1] + [Number("2")] == MixedRPN[..2];
    ConvertStep(MinusFirst(), tokens, MixedRPN[..1], [Operator("+")], MixedRPN[..2], [Operator("+")], Ok(MixedRPN));
  }

  lemma PrecedenceFrom1()
    ensures Convert(MinusFirst(), MixedTokens[1..], MixedRPN[..1], []) == Ok(MixedRPN)
  {
    var reg, tokens := MinusFirst(), MixedTokens[1..];
    PrecedenceFrom2();
    assert tokens[0] == Operator("+") && tokens[1..] == MixedTokens[2..];
    assert PopOperators(reg, reg["+"], MixedRPN[..1], []) == (MixedRPN[..1], []);
    assert [] + [Operator("+")] == [Operator("+")];
    ConvertStep(reg, tokens, MixedRPN[..1], [], MixedRPN[..1], [Operator("+")], Ok(MixedRPN));
  }

  /** "1+2-3" with "-" binding tighter: the lower "+" waits on the stack until the end, giving "1 2 3 - +". */
  lemma PostfixPrecedence()
    ensures Postfix(MinusFirst(), MixedTokens) == Ok(MixedRPN)
  {
    PrecedenceFrom1();
    assert MixedTokens[0] == Number("1");
    assert [] + [Number("1")] == MixedRPN[..1];
    ConvertStep(MinusFirst(), MixedTokens, [], [], MixedRPN[..1], [], Ok(MixedRPN));
  }
}
