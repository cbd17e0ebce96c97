/** Values that may be absent, and outcomes that are a value or one of the engine's errors. */
module Outcomes {

  datatype Option<+T> = None | Some(value: T)

  /** The failures the engine reports. Each one stands for an exception the engine throws. */
  datatype EngineError =
    | UnknownToken(position: nat, ch: char)      // tokenizer: position is an index into the trimmed input
    | UnknownOperator(symbol: string)            // an operator token whose symbol is not registered
    | MismatchedParentheses
    | InsufficientOperands(symbol: string)       // fewer operands on the stack than the operator's arity
    | InvalidToken(text: string)                 // a parenthesis token reaching the AST builder
    | InvalidExpression(stackSize: nat)          // AST builder: final stack size is not 1
    | EvaluationStack(stackSize: nat)            // stepwise evaluator: final stack size is not 1
    | IndexOutOfBounds(index: int, length: int)  // an operand list or array shorter than its consumer reads
    | NegativeArraySize(size: int)               // the evaluator's operand array for a negative arity
    | NumberFormat(text: string)                 // a number literal that does not parse

  datatype Result<+T> = Ok(value: T) | Err(error: EngineError) {
    predicate IsFailure() { Err? }

    function PropagateFailure<U>(): Result<U>
      requires Err?
    {
      Err(error)
    }

    function Extract(): T
      requires Ok?
    {
      value
    }
  }

  /** Puts `prefix` in front of a successful list result; an error passes through unchanged. */
  function Then<T>(prefix: seq<T>, r: Result<seq<T>>): (q: Result<seq<T>>)
    ensures q.Ok? <==> r.Ok?
    ensures q.Err? ==> q.error == r.error
  {
    match r
    case Ok(s) => Ok(prefix + s)
    case Err(e) => Err(e)
  }

  lemma ThenThen<T>(a: seq<T>, b: seq<T>, r: Result<seq<T>>)
    ensures Then(a, Then(b, r)) == Then(a + b, r)
    ensures Then([], r) == r
  {
    if r.Ok? {
      assert a + (b + r.value) == (a + b) + r.value;
      assert [] + r.value == r.value;
    }
  }
}
