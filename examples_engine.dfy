/** Worked evaluations of postfix forms with the built-in operators, and the whole calculation of the default input. */
module EngineExamples {
  import opened Outcomes
  import opened Tokens
  import opened Operators
  import opened Expressions
  import opened AstBuilder
  import opened StepEvaluator
  import opened Engine
  import opened TokenizerExamples
  import opened ShuntingYardExamples

  lemma NumeralValues()
    ensures ParseNumeral("10") == Some(10) && ParseNumeral("5") == Some(5)
    ensures ParseNumeral("8") == Some(8) && ParseNumeral("2") == Some(2)
  {
    assert "10"[..1] == "1" && "1"[..0] == "" && "5"[..0] == "" && "8"[..0] == "" && "2"[..0] == "";
    assert DigitsValue("1") == 1 && DigitsValue("10") == 10;
  }

  /** A number pushed by the evaluator, with the rest of the trace given. */
  lemma EvalPush(reg: Registry, rpn: seq<Token>, stack: seq<int>, v: int, stack': seq<int>, rest: seq<TraceStep>, all: seq<TraceStep>)
    requires |rpn| > 0 && rpn[0].Number? && ParseNumeral(rpn[0].text) == Some(v)
    requires stack' == stack + [v] && EvalFrom(reg, rpn[1..], stack') == Ok(rest)
    requires all == [Push(rpn[0].text)] + rest
    ensures EvalFrom(reg, rpn, stack) == Ok(all)
  {
  }

  /** A binary operator applied by the evaluator, with the rest of the trace given. */
  lemma EvalApply(reg: Registry, rpn: seq<Token>, stack: seq<int>, a: int, b: int, v: int, stack': seq<int>,
                  rest: seq<TraceStep>, all: seq<TraceStep>)
    requires |rpn| > 0 && rpn[0].Operator? && rpn[0].symbol in reg && reg[rpn[0].symbol].arity == 2
    requires |stack| >= 2 && stack[|stack| - 2..] == [a, b] && Operate(reg[rpn[0].symbol], [a, b]) == Ok(v)
    requires stack' == stack[..|stack| - 2] + [v] && EvalFrom(reg, rpn[1..], stack') == Ok(rest)
    requires all == [Applied(rpn[0].symbol, [a, b], v)] + rest
    ensures EvalFrom(reg, rpn, stack) == Ok(all)
  {
  }

  /** The trace of the default input: pushes and applications left to right, then the result 15. */
  const DefaultTrace := [Push("10"), Push("5"), Applied("-", [10, 5], 5), Push("8"), Applied("+", [5, 8], 13),
                         Push("2"), Applied("+", [13, 2], 15), Final(15)]

  /** With the single value 15 left, the trace ends with its result line. */
  lemma EvalFrom7()
    ensures EvalFrom(Builtins(), DefaultRPN[7..], [15]) == Ok(DefaultTrace[7..])
  {
    assert DefaultRPN[7..] == [];
    assert DefaultTrace[7..] == [Final(15)];
  }

  lemma EvalFrom6()
    ensures EvalFrom(Builtins(), DefaultRPN[6..], [13, 2]) == Ok(DefaultTrace[6..])
  {
    var rpn := DefaultRPN[6..];
    EvalFrom7();
    assert rpn[0] == Operator("+");
    assert rpn[1..] == DefaultRPN[7..];
    assert DefaultTrace[6..] == [Applied("+", [13, 2], 15)] + DefaultTrace[7..];
    EvalApply(Builtins(), rpn, [13, 2], 13, 2, 15, [15], DefaultTrace[7..], DefaultTrace[6..]);
  }

  lemma EvalFrom5()
    ensures EvalFrom(Builtins(), DefaultRPN[5..], [13]) == Ok(DefaultTrace[5..])
  {
    var rpn := DefaultRPN[5..];
    EvalFrom6();
    NumeralValues();
    assert rpn[0] == Number("2");
    assert rpn[1..] == DefaultRPN[6..];
    assert DefaultTrace[5..] == [Push("2")] + DefaultTrace[6..];
    EvalPush(Builtins(), rpn, [13], 2, [13, 2], DefaultTrace[6..], DefaultTrace[5..]);
  }

  lemma EvalFrom4()
    ensures EvalFrom(Builtins(), DefaultRPN[4..], [5, 8]) == Ok(DefaultTrace[4..])
  {
    var rpn := DefaultRPN[4..];
    EvalFrom5();
    assert rpn[0] == Operator("+");
    assert rpn[1..] == DefaultRPN[5..];
    assert DefaultTrace[4..] == [Applied("+", [5, 8], 13)] + DefaultTrace[5..];
    EvalApply(Builtins(), rpn, [5, 8], 5, 8, 13, [13], DefaultTrace[5..], DefaultTrace[4..]);
  }

  lemma EvalFrom3()
    ensures EvalFrom(Builtins(), DefaultRPN[3..], [5]) == Ok(DefaultTrace[3..])
  {
    var rpn := DefaultRPN[3..];
    EvalFrom4();
    NumeralValues();
    assert rpn[0] == Number("8");
    assert rpn[1..] == DefaultRPN[4..];
    assert DefaultTrace[3..] == [Push("8")] + DefaultTrace[4..];
    EvalPush(Builtins(), rpn, [5], 8, [5, 8], DefaultTrace[4..], DefaultTrace[3..]);
  }

  /** The "-" takes 10 and 5 in stack order, so it computes 10 - 5. */
  lemma EvalFrom2()
    ensures EvalFrom(Builtins(), DefaultRPN[2..], [10, 5]) == Ok(DefaultTrace[2..])
  {
    var rpn := DefaultRPN[2..];
    EvalFrom3();
    assert rpn[0] == Operator("-");
    assert rpn[1..] == DefaultRPN[3..];
    assert DefaultTrace[2..] == [Applied("-", [10, 5], 5)] + DefaultTrace[3..];
    EvalApply(Builtins(), rpn, [10, 5], 10, 5, 5, [5], DefaultTrace[3..], DefaultTrace[2..]);
  }

  lemma EvalFrom1()
    ensures EvalFrom(Builtins(), DefaultRPN[1..], [10]) == Ok(DefaultTrace[1..])
  {
    var rpn := DefaultRPN[1..];
    EvalFrom2();
    NumeralValues();
    assert rpn[0] == Number("5");
    assert rpn[1..] == DefaultRPN[2..];
    assert DefaultTrace[1..] == [Push("5")] + DefaultTrace[2..];
    EvalPush(Builtins(), rpn, [10], 5, [10, 5], DefaultTrace[2..], DefaultTrace[1..]);
  }

  /** The trace of "10 5 - 8 + 2 +": each number pushed, each operator applied to the two values below it, then 15. */
  lemma EvaluationDefaultInput()
    ensures Evaluation(Builtins(), DefaultRPN) == Ok(DefaultTrace)
  {
    EvalFrom1();
    NumeralValues();
    assert DefaultRPN[0] == Number("10");
    assert DefaultTrace == [Push("10")] + DefaultTrace[1..];
    EvalPush(Builtins(), DefaultRPN, [], 10, [10], DefaultTrace[1..], DefaultTrace);
  }

  /** A number pushed by the tree builder, with the rest of the build given. */
  lemma BuildPush(reg: Registry, rpn: seq<Token>, stack: seq<Expr>, v: int, stack': seq<Expr>, r: Result<Expr>)
    requires |rpn| > 0 && rpn[0].Number? && ParseNumeral(rpn[0].text) == Some(v)
    requires stack' == stack + [Num(v)] && BuildFrom(reg, rpn[1..], stack') == r
    ensures BuildFrom(reg, rpn, stack) == r
  {
  }

  /** A binary node built from the top two trees, with the rest of the build given. */
  lemma BuildApply(reg: Registry, rpn: seq<Token>, stack: seq<Expr>, a: Expr, b: Expr, stack': seq<Expr>, r: Result<Expr>)
    requires |rpn| > 0 && rpn[0].Operator? && rpn[0].symbol in reg && reg[rpn[0].symbol].arity == 2
    requires |stack| >= 2 && stack[|stack| - 2..] == [a, b]
    requires stack' == stack[..|stack| - 2] + [Bin(reg[rpn[0].symbol].creator, a, b)]
    requires BuildFrom(reg, rpn[1..], stack') == r
    ensures BuildFrom(reg, rpn, stack) == r
  {
  }

  /** The tree of the default input: the operations nest to the left, each operand in its input position. */
  const DefaultTree := Bin(Add, Bin(Add, Bin(Sub, Num(10), Num(5)), Num(8)), Num(2))

  /** The first two nodes built for the default input: 10 - 5, then (10 - 5) + 8. */
  const FirstNode := Bin(Sub, Num(10), Num(5))
  const SecondNode := Bin(Add, FirstNode, Num(8))

  lemma BuildFrom6()
    ensures BuildFrom(Builtins(), DefaultRPN[6..], [SecondNode, Num(2)]) == Ok(DefaultTree)
  {
    var rpn := DefaultRPN[6..];
    assert rpn[0] == Operator("+") && rpn[1..] == [];
    assert BuildFrom(Builtins(), rpn[1..], [DefaultTree]) == Ok(DefaultTree);
    BuildApply(Builtins(), rpn, [SecondNode, Num(2)], SecondNode, Num(2), [DefaultTree], Ok(DefaultTree));
  }

  lemma BuildFrom5()
    ensures BuildFrom(Builtins(), DefaultRPN[5..], [SecondNode]) == Ok(DefaultTree)
  {
    var rpn := DefaultRPN[5..];
    BuildFrom6();
    NumeralValues();
    assert rpn[0] == Number("2");
    assert rpn[1..] == DefaultRPN[6..];
    BuildPush(Builtins(), rpn, [SecondNode], 2, [SecondNode, Num(2)], Ok(DefaultTree));
  }

  lemma BuildFrom4()
    ensures BuildFrom(Builtins(), DefaultRPN[4..], [FirstNode, Num(8)]) == Ok(DefaultTree)
  {
    var rpn := DefaultRPN[4..];
    BuildFrom5();
    assert rpn[0] == Operator("+");
    assert rpn[1..] == DefaultRPN[5..];
    BuildApply(Builtins(), rpn, [FirstNode, Num(8)], FirstNode, Num(8), [SecondNode], Ok(DefaultTree));
  }

  lemma BuildFrom3()
    ensures BuildFrom(Builtins(), DefaultRPN[3..], [FirstNode]) == Ok(DefaultTree)
  {
    var rpn := DefaultRPN[3..];
    BuildFrom4();
    NumeralValues();
    assert rpn[0] == Number("8");
    assert rpn[1..] == DefaultRPN[4..];
    BuildPush(Builtins(), rpn, [FirstNode], 8, [FirstNode, Num(8)], Ok(DefaultTree));
  }

  /** The operand popped first, 5, becomes the right child: the node is 10 - 5 and not 5 - 10. */
  lemma BuildFrom2()
    ensures BuildFrom(Builtins(), DefaultRPN[2..], [Num(10), Num(5)]) == Ok(DefaultTree)
  {
    var rpn := DefaultRPN[2..];
    BuildFrom3();
    assert rpn[0] == Operator("-");
    assert rpn[1..] == DefaultRPN[3..];
    BuildApply(Builtins(), rpn, [Num(10), Num(5)], Num(10), Num(5), [FirstNode], Ok(DefaultTree));
  }

  lemma BuildFrom1()
    ensures BuildFrom(Builtins(), DefaultRPN[1..], [Num(10)]) == Ok(DefaultTree)
  {
    var rpn := DefaultRPN[1..];
    BuildFrom2();
    NumeralValues();
    assert rpn[0] == Number("5");
    assert rpn[1..] == DefaultRPN[2..];
    BuildPush(Builtins(), rpn, [Num(10)], 5, [Num(10), Num(5)], Ok(DefaultTree));
  }

  /** "10 5 - 8 + 2 +" builds ((10 - 5) + 8) + 2, whose value is 15. */
  lemma BuildDefaultInput()
    ensures Build(Builtins(), DefaultRPN) == Ok(DefaultTree)
    ensures Interpret(DefaultTree) == 15
  {
    BuildFrom1();
    NumeralValues();
    assert DefaultRPN[0] == Number("10");
    BuildPush(Builtins(), DefaultRPN, [], 10, [Num(10)], Ok(DefaultTree));
  }

  /** In `((10 - 5) + 8) + 2` only the 5 is subtracted, so the value is 10 - 5 + 8 + 2. */
  lemma DefaultTreeSigns()
    ensures SignedLeaves(DefaultTree, true) == [10, -5, 8, 2]
    ensures Sum(SignedLeaves(DefaultTree, true)) == Interpret(DefaultTree)
  {
    assert SignedLeaves(FirstNode, true) == [10, -5];
    assert SignedLeaves(SecondNode, true) == [10, -5, 8];
    InterpretSignedSum(DefaultTree, true);
  }

  /** The calculator's default input "10-5+8+2" shows these tokens, this postfix form and trace, and the value 15. */
  lemma CalculateDefaultInput()
    ensures Calculate(Builtins(), DefaultInput) == Ok(Display(DefaultTokens, DefaultRPN, DefaultTrace, 15))
  {
    TrimDefaultInput();
    TokensOfDefaultInput();
    PostfixDefaultInput();
    EvaluationDefaultInput();
    BuildDefaultInput();
  }
}
