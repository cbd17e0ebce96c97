/** The whole evaluation of one input line: tokens, postfix form, trace and value, in the order the engine runs them. */
module Engine {
  import opened Outcomes
  import opened Tokens
  import opened Operators
  import opened Expressions
  import opened Tokenizer
  import opened ShuntingYard
  import opened ShuntingYardProperties
  import opened AstBuilder
  import opened StepEvaluator

  /** What one evaluation shows: the token list, the postfix list, the trace and the value. */
  datatype Display = Display(tokens: seq<Token>, rpn: seq<Token>, steps: seq<TraceStep>, value: int)

  /**
   * The input is trimmed, tokenized, converted to postfix, evaluated step by step and built into a
   * tree whose value is the result. The first stage that fails decides the error.
   */
  function Calculate(reg: Registry, input: string): Result<Display>
  {
    var tokens :- TokensOf(reg, Trim(input));
    var rpn :- Postfix(reg, tokens);
    var steps :- Evaluation(reg, rpn);
    var tree :- Build(reg, rpn);
    Ok(Display(tokens, rpn, steps, Interpret(tree)))
  }

  method Evaluate(registry: OperatorRegistry, input: string) returns (r: Result<Display>)
    ensures r == Calculate(registry.entries, input)
  {
    var reg := registry.entries;
    var tokens :- Tokenize(reg, Trim(input));
    var rpn :- ToRPN(reg, tokens);
    var steps :- EvaluateRPNWithSteps(reg, rpn);
    var tree :- BuildAST(reg, rpn);
    return Ok(Display(tokens, rpn, steps, Interpret(tree)));
  }

  /** Trimming twice, once before the tokenizer and once inside it, is trimming once. */
  lemma TrimTwice(s: string)
    ensures Trim(Trim(s)) == Trim(s)
  {
    var r := Trim(s);
    if |r| > 0 {
      assert TrimStart(r) == r;
      assert TrimEnd(r) == r;
    }
  }

  lemma {:induction false} ExecutedOfNoParens(rpn: seq<Token>)
    requires NoParens(rpn)
    ensures Executed(rpn) == rpn
    decreases |rpn|
  {
    if |rpn| > 0 {
      NoParensFirst(rpn);
      ExecutedOfNoParens(rpn[1..]);
    }
  }

  /**
   * On the postfix form of the input the two evaluation paths succeed or fail together, and with
   * evaluators that match their creators the trace's result line carries the tree's value.
   */
  lemma CalculateAgrees(reg: Registry, input: string)
    ensures var tokens := TokensOf(reg, Trim(input));
      tokens.Ok? && Postfix(reg, tokens.value).Ok? ==>
        (Evaluation(reg, Postfix(reg, tokens.value).value).Ok? <==> Build(reg, Postfix(reg, tokens.value).value).Ok?)
    ensures var c := Calculate(reg, input);
      Consistent(reg) && c.Ok? ==> |c.value.steps| > 0 && c.value.steps[|c.value.steps| - 1] == Final(c.value.value)
  {
    var tokens := TokensOf(reg, Trim(input));
    if tokens.Ok? && Postfix(reg, tokens.value).Ok? {
      PostfixPathsAgree(reg, tokens.value);
    }
    if Consistent(reg) {
      CalculateResultLine(reg, input);
    }
  }

  /** On postfix output, stepwise evaluation and tree building succeed or fail together. */
  lemma PostfixPathsAgree(reg: Registry, tokens: seq<Token>)
    requires Postfix(reg, tokens).Ok?
    ensures Evaluation(reg, Postfix(reg, tokens).value).Ok? <==> Build(reg, Postfix(reg, tokens).value).Ok?
  {
    var rpn := Postfix(reg, tokens).value;
    PostfixContents(reg, tokens);
    ExecutedOfNoParens(rpn);
    EvalFits(reg, rpn, []);
    BuildFits(reg, rpn, []);
  }

  /** With evaluators that match their creators, the last trace line shows the displayed value. */
  lemma CalculateResultLine(reg: Registry, input: string)
    requires Consistent(reg)
    ensures var c := Calculate(reg, input);
      c.Ok? ==> |c.value.steps| > 0 && c.value.steps[|c.value.steps| - 1] == Final(c.value.value)
  {
    var c := Calculate(reg, input);
    if c.Ok? {
      CalculateStages(reg, input);
      EvaluationAgrees(reg, c.value.rpn);
    }
  }

  lemma {:induction false} NumberValuesAppend(a: seq<Token>, b: seq<Token>)
    ensures NumberValues(a + b) == NumberValues(a) + NumberValues(b)
    decreases |a|
  {
    if |a| == 0 {
      assert a + b == b;
    } else {
      assert (a + b)[1..] == a[1..] + b;
      NumberValuesAppend(a[1..], b);
    }
  }

  /** The number values of a token sequence depend only on its number tokens. */
  lemma {:induction false} NumberValuesOfNumbers(s: seq<Token>)
    ensures NumberValues(s) == NumberValues(Numbers(s))
    decreases |s|
  {
    if |s| > 0 {
      var init, x := s[..|s| - 1], s[|s| - 1];
      assert s == init + [x];
      NumberValuesAppend(init, [x]);
      NumberValuesOfNumbers(init);
      NumberValuesAppend(Numbers(init), if x.Number? then [x] else []);
    }
  }

  /** A successful calculation shows the results of its stages. */
  lemma {:induction false} CalculateStages(reg: Registry, input: string)
    ensures var c := Calculate(reg, input);
      c.Ok? ==>
        && TokensOf(reg, Trim(input)) == Ok(c.value.tokens)
        && Postfix(reg, c.value.tokens) == Ok(c.value.rpn)
        && Evaluation(reg, c.value.rpn) == Ok(c.value.steps)
        && Build(reg, c.value.rpn).Ok?
        && c.value.value == Interpret(Build(reg, c.value.rpn).value)
  {
    var tokens := TokensOf(reg, Trim(input));
    if tokens.Ok? {
      var p := Postfix(reg, tokens.value);
      if p.Ok? {
        var e := Evaluation(reg, p.value);
        var b := Build(reg, p.value);
        if e.Ok? && b.Ok? {
          assert Calculate(reg, input) == Ok(Display(tokens.value, p.value, e.value, Interpret(b.value)));
        }
      }
    }
  }

  /** With binary operators, a tree built from the postfix form holds the input's numbers as leaves, in order. */
  lemma PostfixLeaves(reg: Registry, tokens: seq<Token>)
    requires Binary(reg)
    ensures var p := Postfix(reg, tokens);
      p.Ok? && Build(reg, p.value).Ok? ==> Leaves(Build(reg, p.value).value) == NumberValues(tokens)
  {
    var p := Postfix(reg, tokens);
    if p.Ok? {
      BuildLeaves(reg, p.value);
      PostfixContents(reg, tokens);
      NumberValuesOfNumbers(p.value);
      NumberValuesOfNumbers(tokens);
    }
  }

  /** With binary operators, the value is that of a tree holding the input's numbers as leaves, in input order. */
  lemma CalculateLeaves(reg: Registry, input: string)
    requires Binary(reg)
    ensures var c := Calculate(reg, input);
      c.Ok? ==>
        && Build(reg, c.value.rpn).Ok?
        && Interpret(Build(reg, c.value.rpn).value) == c.value.value
        && Leaves(Build(reg, c.value.rpn).value) == NumberValues(c.value.tokens)
  {
    var c := Calculate(reg, input);
    if c.Ok? {
      CalculateStages(reg, input);
      PostfixLeaves(reg, c.value.tokens);
    }
  }

  /** The two built-in operators are binary and their evaluators compute what their nodes do. */
  lemma BuiltinsWellBehaved()
    ensures Binary(Builtins()) && Consistent(Builtins())
  {
  }
}
