/** Worked inputs for the tokenizer with the built-in operators. */
module TokenizerExamples {
  import opened Outcomes
  import opened Tokens
  import opened Operators
  import opened Tokenizer

  /** One token of a scan, with the rest of the scan given. */
  lemma ScanStep(reg: Registry, t: string, i: nat, last: Option<Token>, tok: Token, j: nat, rest: seq<Token>, all: seq<Token>)
    requires i < |t| && !IsWhitespace(t[i])
    requires NextToken(reg, t, i, last) == Some((tok, j))
    requires Scan(reg, t, j, Some(tok)) == Ok(rest)
    requires all == [tok] + rest
    ensures Scan(reg, t, i, last) == Ok(all)
  {
  }

  /** The default input of the calculator. */
  const DefaultInput := "10-5+8+2"

  /** The tokens of the default input. */
  const DefaultTokens := [Number("10"), Operator("-"), Number("5"), Operator("+"), Number("8"), Operator("+"), Number("2")]

  lemma DefaultFirstNumber()
    ensures NextToken(Builtins(), DefaultInput, 0, None) == Some((Number("10"), 2))
  {
    var t := DefaultInput;
    assert t[0..2] == "10" && DigitRunEnd(t, 0) == 2;
  }

  lemma DefaultSecondNumber()
    ensures NextToken(Builtins(), DefaultInput, 3, Some(Operator("-"))) == Some((Number("5"), 4))
  {
    var t := DefaultInput;
    assert t[3..4] == "5" && DigitRunEnd(t, 3) == 4;
  }

  lemma DefaultLaterNumbers()
    ensures NextToken(Builtins(), DefaultInput, 5, Some(Operator("+"))) == Some((Number("8"), 6))
    ensures NextToken(Builtins(), DefaultInput, 7, Some(Operator("+"))) == Some((Number("2"), 8))
  {
    var t := DefaultInput;
    assert t[5..6] == "8" && DigitRunEnd(t, 5) == 6;
    assert t[7..8] == "2" && DigitRunEnd(t, 7) == 8;
  }

  /** Each sign of the default input follows a number, so it is an operator. */
  lemma DefaultOperators()
    ensures NextToken(Builtins(), DefaultInput, 2, Some(Number("10"))) == Some((Operator("-"), 3))
    ensures NextToken(Builtins(), DefaultInput, 4, Some(Number("5"))) == Some((Operator("+"), 5))
    ensures NextToken(Builtins(), DefaultInput, 6, Some(Number("8"))) == Some((Operator("+"), 7))
  {
  }

  lemma DefaultFrom7()
    ensures Scan(Builtins(), DefaultInput, 7, Some(Operator("+"))) == Ok([Number("2")])
  {
    DefaultLaterNumbers();
    ScanStep(Builtins(), DefaultInput, 7, Some(Operator("+")), Number("2"), 8, [], [Number("2")]);
  }

  lemma DefaultFrom6()
    ensures Scan(Builtins(), DefaultInput, 6, Some(Number("8"))) == Ok([Operator("+"), Number("2")])
  {
    DefaultFrom7();
    DefaultOperators();
    ScanStep(Builtins(), DefaultInput, 6, Some(Number("8")), Operator("+"), 7, [Number("2")], [Operator("+"), Number("2")]);
  }

  lemma DefaultFrom5()
    ensures Scan(Builtins(), DefaultInput, 5, Some(Operator("+"))) == Ok([Number("8"), Operator("+"), Number("2")])
  {
    DefaultFrom6();
    DefaultLaterNumbers();
    ScanStep(Builtins(), DefaultInput, 5, Some(Operator("+")), Number("8"), 6, [Operator("+"), Number("2")],
      [Number("8"), Operator("+"), Number("2")]);
  }

  lemma DefaultFrom4()
    ensures Scan(Builtins(), DefaultInput, 4, Some(Number("5"))) == Ok(DefaultTokens[3..])
  {
    DefaultFrom5();
    DefaultOperators();
    assert DefaultTokens[3..] == [Operator("+"), Number("8"), Operator("+"), Number("2")];
    ScanStep(Builtins(), DefaultInput, 4, Some(Number("5")), Operator("+"), 5, [Number("8"), Operator("+"), Number("2")],
      DefaultTokens[3..]);
  }

  lemma DefaultFrom3()
    ensures Scan(Builtins(), DefaultInput, 3, Some(Operator("-"))) == Ok(DefaultTokens[2..])
  {
    DefaultFrom4();
    DefaultSecondNumber();
    assert DefaultTokens[2..] == [Number("5")] + DefaultTokens[3..];
    ScanStep(Builtins(), DefaultInput, 3, Some(Operator("-")), Number("5"), 4, DefaultTokens[3..], DefaultTokens[2..]);
  }

  lemma DefaultFrom2()
    ensures Scan(Builtins(), DefaultInput, 2, Some(Number("10"))) == Ok(DefaultTokens[1..])
  {
    DefaultFrom3();
    DefaultOperators();
    assert DefaultTokens[1..] == [Operator("-")] + DefaultTokens[2..];
    ScanStep(Builtins(), DefaultInput, 2, Some(Number("10")), Operator("-"), 3, DefaultTokens[2..], DefaultTokens[1..]);
  }

  lemma TrimDefaultInput()
    ensures Trim(DefaultInput) == DefaultInput
  {
    assert TrimStart(DefaultInput) == DefaultInput;
    assert TrimEnd(DefaultInput) == DefaultInput;
  }

  /** "10-5+8+2" gives 10, -, 5, +, 8, +, 2: a minus after a number is an operator. */
  lemma TokensOfDefaultInput()
    ensures TokensOf(Builtins(), DefaultInput) == Ok(DefaultTokens)
  {
    TrimDefaultInput();
    DefaultFrom2();
    DefaultFirstNumber();
    assert DefaultTokens == [Number("10")] + DefaultTokens[1..];
    ScanStep(Builtins(), DefaultInput, 0, None, Number("10"), 2, DefaultTokens[1..], DefaultTokens);
  }

  lemma NegativeLiteralTokens()
    ensures NextToken(Builtins(), "-5+3", 0, None) == Some((Number("-5"), 2))
    ensures NextToken(Builtins(), "-5+3", 2, Some(Number("-5"))) == Some((Operator("+"), 3))
    ensures NextToken(Builtins(), "-5+3", 3, Some(Operator("+"))) == Some((Number("3"), 4))
  {
    var t := "-5+3";
    assert t[0..2] == "-5" && DigitRunEnd(t, 1) == 2;
    assert t[3..4] == "3" && DigitRunEnd(t, 3) == 4;
  }

  lemma NegativeLiteralFrom2()
    ensures Scan(Builtins(), "-5+3", 2, Some(Number("-5"))) == Ok([Operator("+"), Number("3")])
  {
    var t, reg := "-5+3", Builtins();
    NegativeLiteralTokens();
    ScanStep(reg, t, 3, Some(Operator("+")), Number("3"), 4, [], [Number("3")]);
    ScanStep(reg, t, 2, Some(Number("-5")), Operator("+"), 3, [Number("3")], [Operator("+"), Number("3")]);
  }

  /** "-5+3" gives -5, +, 3: a minus at the start, followed by a digit, is part of the number. */
  lemma TokensOfNegativeLiteral()
    ensures TokensOf(Builtins(), "-5+3") == Ok([Number("-5"), Operator("+"), Number("3")])
  {
    var t := "-5+3";
    assert TrimStart(t) == t && TrimEnd(t) == t;
    NegativeLiteralTokens();
    NegativeLiteralFrom2();
    ScanStep(Builtins(), t, 0, None, Number("-5"), 2, [Operator("+"), Number("3")], [Number("-5"), Operator("+"), Number("3")]);
  }

  /** "1&2": the first character no branch accepts stops the scan with its position. */
  lemma TokensOfUnknownCharacter()
    ensures TokensOf(Builtins(), "1&2") == Err(UnknownToken(1, '&'))
  {
    var t, reg := "1&2", Builtins();
    assert TrimStart(t) == t && TrimEnd(t) == t;
    assert "&" !in reg;
    assert NextToken(reg, t, 1, Some(Number("1"))) == None;
    assert Scan(reg, t, 1, Some(Number("1"))) == Err(UnknownToken(1, '&'));
    assert t[0..1] == "1" && DigitRunEnd(t, 0) == 1;
    assert NextToken(reg, t, 0, None) == Some((Number("1"), 1));
  }
}
