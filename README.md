# Calculator expression engine

This is a model of the expression engine behind the Swing calculator in
`src/Calculator_Interpreter_GUI.java`, with proofs about it. An input line goes through these stages in order:

1. It is trimmed.
2. It is tokenized into numbers, operators and parentheses.
3. It is converted to postfix order by Dijkstra's shunting-yard algorithm, using the precedence and
   associativity in the operator registry.
4. The postfix form is run directly on a value stack, which writes a Push / Apply / Result trace.
5. The same postfix form is built into an expression tree, whose interpretation is the displayed value.

The first stage that throws decides the error. The registry starts with the two operators that
`main` registers: `+` and `-`, both at precedence 1, left-associative, binary, and each with a
direct evaluator.

Modules, in the order of the pipeline:

- `Outcomes`: the `Result` type. It stands for Java exceptions and carries one error kind per `throw` site.
- `Sequences`: reversal, both the order in which a stack hands out its entries and `Collections.reverse`.
- `Expressions`: the `Num`/`Bin` tree, its `Interpret`, and the `Create` operation that the
  registered creators perform. The value of a tree is also given as a signed sum of its leaves.
- `Operators`: `OperatorEntry`, plus the `OperatorRegistry` class, which holds the symbol map that
  `register` updates in place. The built-in entries are here too.
- `Tokens`: the token kinds, Java's `Character.isDigit` (modelled on ASCII digits only) and `isWhitespace`,
  and the numeral syntax the tokenizer produces (`-?[0-9]+`) with its value.
- `Tokenizer` / `TokenizerProperties`: the scan as the method `Tokenize`, which trims and then runs
  the source's `while` loop in `ScanTokens`. It is proved equal to the recursive `TokensOf`, and the
  scan's properties are proved about `TokensOf`.
- `ShuntingYard` / `ShuntingYardProperties`: `ToRPN` (a `for` loop with inner pop loops) proved
  equal to `Postfix`, and the conversion's properties proved about `Postfix`.
- `AstBuilder`: `BuildAST` proved equal to `Build`, together with arity, error and leaf-order properties.
- `StepEvaluator`: `EvaluateRPNWithSteps` proved equal to `Evaluation`, with the operand array
  filled in a reverse-index loop. Its trace shape is proved, and so is its agreement with the tree.
- `Engine`: `Evaluate`, the stage order of the calculator's evaluate button. It is proved equal to `Calculate`,
  together with the end-to-end theorems.
- `TokenizerExamples`, `ShuntingYardExamples`, `EngineExamples`: worked inputs for each stage, one
  token per lemma. Among them is the default `10-5+8+2`, which gives `15`.

Numbers are mathematical integers. The tokenizer only ever produces an optional minus followed
by ASCII digits, and every value the calculator displays goes through a `(long)` cast.

## Model

| member | source | states |
|---|---|---|
| Operators.OperatorRegistry.Register | src/Calculator_Interpreter_GUI.java:93-97 | after registering a symbol, `Get` returns the new entry (replacing any earlier one) and `IsOperator` holds. Every other symbol's `Get` is unchanged. |
| Operators.OperatorRegistry.constructor | src/Calculator_Interpreter_GUI.java:92 | the registry starts empty |
| Operators.Lookup | src/Calculator_Interpreter_GUI.java:96 | the optional entry is present exactly when the symbol is registered, and it is that symbol's entry |
| Operators.Builtins | src/Calculator_Interpreter_GUI.java:34-39 | in the start-up entries for `+` and `-`, each direct evaluator computes the same operation as its creator's node |
| Operators.RegisterBuiltins | src/Calculator_Interpreter_GUI.java:34-39 | the two start-up `register` calls leave a fresh registry that holds exactly the built-in entries |
| Expressions.Create | src/Calculator_Interpreter_GUI.java:35-38 | a creator succeeds exactly when it gets at least two arguments. The node has the creator's operation, its leaves are those of the first two arguments in order, and its value is that operation applied to their values (lines 64 and 70). With fewer arguments it fails as `List.get` does, with an index equal to the list's length. |
| Expressions.InterpretSignedSum | src/Calculator_Interpreter_GUI.java:50-72 | the value of a tree is the sum of its leaves, each negated when it lies on the right of an odd number of subtractions |
| Expressions.SignedLeavesMatch | src/Calculator_Interpreter_GUI.java:50-72 | each signed leaf is the leaf itself or its negation, and the leftmost leaf keeps the sign of the whole tree |
| Expressions.AdditionTreeValue | src/Calculator_Interpreter_GUI.java:62-66 | a tree made only of additions has the sum of its leaves as its value |
| Tokens.ParseNumeral | src/Calculator_Interpreter_GUI.java:181 | a numeral is parsed exactly when it is an optional minus and a non-empty digit run. The value is non-negative without the minus and non-positive with it. |
| Tokens.IntToStringRoundTrip | src/Calculator_Interpreter_GUI.java:226-234 | every integer written in decimal, as the trace writes values, parses back to itself |
| Tokens.NatToStringValue | src/Calculator_Interpreter_GUI.java:226-234 | the decimal digits written for a natural number have that value |
| Tokenizer.Trim | src/Calculator_Interpreter_GUI.java:111 | the trimmed string neither starts nor ends with a character at or below U+0020 |
| Tokenizer.TrimStart | src/Calculator_Interpreter_GUI.java:111 | the result is a suffix of the input, every character dropped from the front is at or below U+0020, and the result does not start with one |
| Tokenizer.TrimEnd | src/Calculator_Interpreter_GUI.java:111 | the result is a prefix of the input, every character dropped from the back is at or below U+0020, and the result does not end with one |
| Tokenizer.TrimSlice | src/Calculator_Interpreter_GUI.java:111 | the trimmed string is one contiguous slice of the input, and everything cut off on either side is at or below U+0020 |
| Tokenizer.DigitRunEnd | src/Calculator_Interpreter_GUI.java:125 | the digit run is maximal: every character up to its end is a digit, and the character after it is not |
| Tokenizer.NextToken | src/Calculator_Interpreter_GUI.java:115-138 | a token's text is exactly the input slice it consumes. A number is taken exactly when the position starts a numeral: a digit, or a fusible minus followed by a digit. A number takes the whole digit run. There is no token exactly when the character is not a parenthesis, does not start a number and is not a registered operator. |
| Tokenizer.SkipDigits | src/Calculator_Interpreter_GUI.java:125 | the digit loop stops at the end of the maximal digit run |
| Tokenizer.ReadToken | src/Calculator_Interpreter_GUI.java:118-138 | at a non-whitespace character, the branches for parentheses, numbers and one-character operators return exactly `NextToken` |
| Tokenizer.Scan | src/Calculator_Interpreter_GUI.java:114-139 | a successful scan from position `i` gives at most one token per remaining character |
| Tokenizer.TokensOf | src/Calculator_Interpreter_GUI.java:109-141 | a successful tokenization gives at most one token per input character |
| Tokenizer.ScanTokens | src/Calculator_Interpreter_GUI.java:113-140 | the `while` loop over the trimmed input returns exactly the recursive scan from its start with no token before |
| Tokenizer.Tokenize | src/Calculator_Interpreter_GUI.java:109-141 | the scan loop returns exactly `TokensOf` of its input |
| TokenizerProperties.ScanError | src/Calculator_Interpreter_GUI.java:114-138 | the tokenizer's only failure is an unknown token. It reports the position of a character that is not whitespace, a parenthesis, a digit or a registered operator. |
| TokenizerProperties.ScanErrorFirst | src/Calculator_Interpreter_GUI.java:114-138 | the reported position is the first failing one: the input cut just before it scans without error |
| TokenizerProperties.ScanAccepts | src/Calculator_Interpreter_GUI.java:114-138 | input made only of whitespace, parentheses, digits and registered operators always tokenizes |
| TokenizerProperties.ScanSpelling | src/Calculator_Interpreter_GUI.java:114-136 | the token texts, concatenated, are the input with its whitespace removed: no character is lost, duplicated or reordered |
| TokenizerProperties.ScanWellFormed | src/Calculator_Interpreter_GUI.java:122-135 | every number token is a well-formed numeral, and every operator token is a registered one-character symbol |
| TokenizerProperties.FirstToken | src/Calculator_Interpreter_GUI.java:115-135 | the first token starts with the first non-whitespace character, and it is a number exactly when that position starts a numeral |
| TokenizerProperties.NegativeLiteralContext | src/Calculator_Interpreter_GUI.java:122-129 | a number token that starts with a minus comes after no token, after an operator or after a left parenthesis |
| TokenizerProperties.MinusOperatorContext | src/Calculator_Interpreter_GUI.java:122-135 | in whitespace-free input, a minus operator directly followed by a digit literal does not stand in a fusible position |
| TokenizerProperties.NoAdjacentNumbers | src/Calculator_Interpreter_GUI.java:122-129 | in whitespace-free input, two number tokens are never adjacent |
| ShuntingYard.PopOperators | src/Calculator_Interpreter_GUI.java:152-157 | the operator pops take entries only from the top of the stack, and they stop at an operator that the incoming one does not make go first |
| ShuntingYard.PopOperatorsOutput | src/Calculator_Interpreter_GUI.java:152-157 | the popped top part of the stack is appended to the output in pop order, top first, after what was output before |
| ShuntingYard.PopOperatorsPopped | src/Calculator_Interpreter_GUI.java:152-157 | every popped entry is a registered operator that the incoming operator makes go first |
| ShuntingYard.PopToParen | src/Calculator_Interpreter_GUI.java:162-164 | a right parenthesis removes a strict top part of the stack down to and including the nearest left parenthesis; the entries above it, none of them a left parenthesis, are appended to the output top first. Without a left parenthesis on the stack it fails with mismatched parentheses. |
| ShuntingYard.Drain | src/Calculator_Interpreter_GUI.java:168-172 | the final drain succeeds exactly when no parenthesis is left on the stack, and then appends the whole stack to the output, top first. Otherwise it fails with mismatched parentheses. |
| ShuntingYard.Step | src/Calculator_Interpreter_GUI.java:148-166 | each token keeps the operator stack made of left parentheses and registered operators, and adds at most one entry to the output and the stack together |
| ShuntingYard.Convert | src/Calculator_Interpreter_GUI.java:147-172 | a completed conversion is no longer than the output and stack it started from together with the remaining tokens |
| ShuntingYard.Postfix | src/Calculator_Interpreter_GUI.java:144-174 | the postfix form is never longer than the input tokens |
| ShuntingYard.ToRPN | src/Calculator_Interpreter_GUI.java:144-174 | the conversion loop returns exactly `Postfix` of its tokens |
| ShuntingYardProperties.PostfixContents | src/Calculator_Interpreter_GUI.java:147-172 | the postfix output has no parenthesis token. It holds every number and operator token exactly as often as the input does, and the number tokens in their input order. |
| ShuntingYardProperties.ConvertCounts | src/Calculator_Interpreter_GUI.java:147-172 | a completed conversion outputs each number or operator token as often as the output, stack and remaining input held it |
| ShuntingYardProperties.ConvertNumbers | src/Calculator_Interpreter_GUI.java:147-172 | a completed conversion appends the input's numbers, in order, to those already output |
| ShuntingYardProperties.ConvertNoParens | src/Calculator_Interpreter_GUI.java:147-172 | a completed conversion from a parenthesis-free output never outputs a parenthesis |
| ShuntingYardProperties.StepMoves | src/Calculator_Interpreter_GUI.java:148-166 | one token's step moves tokens between the stack and the output without creating or losing any number or operator |
| ShuntingYardProperties.StepNumbers | src/Calculator_Interpreter_GUI.java:148-166 | one token's step appends that token to the numbers output when it is a number, otherwise none, and it never outputs a parenthesis |
| ShuntingYardProperties.PostfixMismatch | src/Calculator_Interpreter_GUI.java:162-170 | when every operator is registered, the conversion succeeds exactly when the parentheses balance. Otherwise it fails with mismatched parentheses, both for a `)` with nothing open (`1+2)`) and for a `(` left open (`(1+2`). |
| ShuntingYardProperties.StepDepth | src/Calculator_Interpreter_GUI.java:160-164 | a `(` adds one open parenthesis to the stack and a `)` removes one, failing with mismatched parentheses exactly when none is open. Any other registered token leaves the count unchanged. |
| ShuntingYardProperties.ConvertBalance | src/Calculator_Interpreter_GUI.java:160-170 | from any stack, the conversion succeeds exactly when the remaining input closes every open parenthesis and closes nothing that is not open |
| ShuntingYardProperties.ConvertError | src/Calculator_Interpreter_GUI.java:151-170 | every conversion error is a parenthesis mismatch or an unregistered operator that occurs in the input |
| ShuntingYardProperties.StepKeepsOrder | src/Calculator_Interpreter_GUI.java:152-158 | between parentheses, each stacked operator binds tighter than the one below it, or as tight and to the right. It follows that when two left-associative operators of equal precedence meet, the earlier one is output first. |
| ShuntingYardProperties.PopOperatorsDepth | src/Calculator_Interpreter_GUI.java:152-157 | popping for an incoming operator leaves the open left parentheses on the stack |
| ShuntingYardProperties.PopToParenDepth | src/Calculator_Interpreter_GUI.java:162-164 | a right parenthesis closes exactly one open left parenthesis |
| AstBuilder.PopOperands | src/Calculator_Interpreter_GUI.java:186-189 | for a non-negative arity, `arity` operands are taken from the top and none for a negative one. Popping and then reversing gives them in their left-to-right stack order, so the one popped first becomes the last argument. The rest of the stack is what lies below them. |
| Sequences.Reversed | src/Calculator_Interpreter_GUI.java:189 | the reversal has the same length and puts element `k` at position `n - 1 - k` |
| AstBuilder.BuildAST | src/Calculator_Interpreter_GUI.java:177-198 | the building loop returns exactly `Build` of its postfix tokens |
| AstBuilder.BuildFrom | src/Calculator_Interpreter_GUI.java:179-195 | building succeeds only on a sequence of number and operator tokens: any other token fails |
| AstBuilder.Build | src/Calculator_Interpreter_GUI.java:177-198 | a postfix sequence that builds holds no parenthesis |
| AstBuilder.BuildFits | src/Calculator_Interpreter_GUI.java:179-196 | building succeeds exactly when every number is a numeral and every operator is registered with an arity of at least two that the operand stack can supply, with no parenthesis present and one operand left at the end |
| AstBuilder.BuildErrors | src/Calculator_Interpreter_GUI.java:183-196 | every building error is one of the following: a final stack size other than one; an invalid numeral; an unknown operator from the input; too few operands for an operator from the input; a creator given fewer than two arguments; or an invalid token when a parenthesis is present |
| AstBuilder.BuildKeepsLeaves | src/Calculator_Interpreter_GUI.java:179-191 | with binary operators, the tree has the stacked trees' leaves followed by the remaining numbers as its leaves, in order |
| AstBuilder.BuildLeaves | src/Calculator_Interpreter_GUI.java:179-197 | with binary operators, the tree holds the postfix numbers as leaves in their order |
| StepEvaluator.Render | src/Calculator_Interpreter_GUI.java:205-234 | a push line is `Push ` followed by the number's text. An apply line starts `Apply <op> on `. The result line is `Result: ` followed by a numeral for the value. |
| StepEvaluator.Operate | src/Calculator_Interpreter_GUI.java:211-221 | an operator application succeeds exactly on at least two operands, and it has the value of its evaluator, or of its creator's node when the evaluator is absent. With fewer operands it fails as the array or list read does, with an index equal to the length. |
| StepEvaluator.Nums | src/Calculator_Interpreter_GUI.java:216-217 | the fallback gives the creator one number node per operand, in order |
| StepEvaluator.PopValues | src/Calculator_Interpreter_GUI.java:211-212 | the reverse-index pop loop fills the array with the top `arity` values in their stack order, and the rest of the stack is what lies below them |
| StepEvaluator.EvaluateRPNWithSteps | src/Calculator_Interpreter_GUI.java:201-236 | the evaluation loop returns exactly `Evaluation` of its postfix tokens |
| StepEvaluator.EvalTrace | src/Calculator_Interpreter_GUI.java:204-234 | the trace has one line per number and operator, in order, and then a final result line. Each push line names its number, and each apply line names its operator, its operands and the value they give. |
| StepEvaluator.EvalFits | src/Calculator_Interpreter_GUI.java:204-233 | the evaluation succeeds exactly when its numbers and operators, with parentheses skipped, fit the operand stack as building requires |
| StepEvaluator.EvalAgrees | src/Calculator_Interpreter_GUI.java:204-234 | when the evaluators match their creators and each stacked value is the value of its stacked tree, the evaluation succeeds wherever building does, and its result line carries the tree's value |
| StepEvaluator.EvaluationAgrees | src/Calculator_Interpreter_GUI.java:201-236 | when the evaluators match their creators and the tree builds, the evaluator's result line reports the value of interpreting that tree |
| Engine.Evaluate | src/Calculator_Interpreter_GUI.java:304-318 | the evaluate action trims, tokenizes, converts, evaluates stepwise and builds, in that order, and returns exactly `Calculate` of the input |
| Engine.CalculateStages | src/Calculator_Interpreter_GUI.java:306-317 | a successful calculation shows the tokenizer's tokens, their postfix form, the trace of that form, and the value of the tree built from it |
| Engine.CalculateAgrees | src/Calculator_Interpreter_GUI.java:310-317 | on the postfix form of an input, stepwise evaluation and tree building succeed or fail together. With evaluators that match their creators, the trace's last line is the result that is displayed. |
| Engine.PostfixPathsAgree | src/Calculator_Interpreter_GUI.java:310-315 | on the output of the conversion, stepwise evaluation succeeds exactly when tree building does |
| Engine.CalculateResultLine | src/Calculator_Interpreter_GUI.java:312-317 | with evaluators that match their creators, a successful calculation's trace ends with a result line showing the displayed value |
| Engine.CalculateLeaves | src/Calculator_Interpreter_GUI.java:308-317 | with binary operators, the displayed value is that of a tree whose leaves are the input's numbers in input order |
| Engine.PostfixLeaves | src/Calculator_Interpreter_GUI.java:310-315 | with binary operators, the tree built from the postfix form holds the input's numbers as leaves, in input order |
| Engine.TrimTwice | src/Calculator_Interpreter_GUI.java:306-308 | trimming before the tokenizer and again inside it is the same as trimming once |
| Engine.BuiltinsWellBehaved | src/Calculator_Interpreter_GUI.java:34-39 | the built-in operators are binary, and their evaluators match their creators |
| TokenizerExamples.TokensOfDefaultInput | src/Calculator_Interpreter_GUI.java:122-135 | `10-5+8+2` tokenizes to `10 - 5 + 8 + 2`: a minus after a number is an operator |
| TokenizerExamples.TokensOfNegativeLiteral | src/Calculator_Interpreter_GUI.java:122-129 | `-5+3` tokenizes to `-5 + 3`: a leading minus followed by a digit is fused into the number |
| TokenizerExamples.TokensOfUnknownCharacter | src/Calculator_Interpreter_GUI.java:138 | `1&2` fails with an unknown token `&` at position 1 |
| ShuntingYardExamples.PostfixDefaultInput | src/Calculator_Interpreter_GUI.java:152-158 | `10 - 5 + 8 + 2` converts to `10 5 - 8 + 2 +` |
| ShuntingYardExamples.PostfixPrecedence | src/Calculator_Interpreter_GUI.java:152-172 | when `-` binds tighter than `+`, `1 + 2 - 3` converts to `1 2 3 - +`: the higher-precedence operator stays above the lower one |
| ShuntingYardExamples.PostfixUnbalanced | src/Calculator_Interpreter_GUI.java:162-170 | `(1+2` and `1+2)` both fail with mismatched parentheses |
| EngineExamples.EvaluationDefaultInput | src/Calculator_Interpreter_GUI.java:204-234 | the trace of `10 5 - 8 + 2 +` is the following: push 10, push 5, apply `-` to 10 and 5 giving 5, push 8, apply `+` giving 13, push 2, apply `+` giving 15, then the result 15 |
| EngineExamples.BuildDefaultInput | src/Calculator_Interpreter_GUI.java:183-191 | `10 5 - 8 + 2 +` builds `((10 - 5) + 8) + 2`, with the operands in input order, and that tree has the value 15 |
| EngineExamples.DefaultTreeSigns | src/Calculator_Interpreter_GUI.java:62-72 | in the default tree only the 5 is subtracted: its signed leaves are 10, -5, 8 and 2, and they sum to its value |
| EngineExamples.CalculateDefaultInput | src/Calculator_Interpreter_GUI.java:304-317 | the calculator's default input `10-5+8+2` shows those tokens, that postfix form and that trace, and the value 15 |

## Left out

- The Swing interface (`CalcFrame`, `HeaderPanel`, the `invokeLater` launch): only the stage order of the evaluate action is kept. What the list models, labels and colours show is not modelled.
- IEEE double arithmetic and `Double.parseDouble`: values are unbounded integers. The model does not capture rounding above 2^53 or the saturation of the `(long)` casts for huge literals.
- `Character.isDigit` is modelled as ASCII `0`-`9`. Java also accepts the other Unicode decimal digits, and for those `parseDouble` would then throw.
- Registry creators and evaluators are arbitrary lambdas in the source. They are modelled as the two operation tags `Add` and `Sub`, and a creator always reads its first two arguments, as both built-in creators do. An evaluator may be absent, which takes the evaluator's fallback through the creator.
- `toString` of the tree nodes, and the exact wording of exception messages: errors are modelled by kind, with the position, symbol, text or stack size they report.
- The registry is a process-wide static map in the source. Here it is a class instance holding a map, and each parser stage reads the map it is given.
- The stepwise trace is modelled as a sequence of line records. `Render` gives each line's text from its integers, and the `(long)` casts of integral doubles are the identity there.
- Multi-character operator symbols can be registered, but the tokenizer never produces them. Only the conversion, builder and evaluator accept them.
- Operator arities of 0, 1 or below zero are modelled, and so is the error each stage raises for them. The agreement theorems require that the registered evaluators match their creators (`Consistent`), which the built-in operators satisfy.
