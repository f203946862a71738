/** Shared vocabulary of the interpreter: optional values, source positions,
    the failures the pipeline can raise, and a failure-compatible result type. */
module Common {

  datatype Option<+T> = None | Some(value: T)

  /** A line/column pair as the character cursor reports it in diagnostics. */
  datatype Position = Position(line: nat, col: nat)

  /** What a syntax diagnostic complains about. */
  datatype SyntaxIssue =
    | ExpectingPunctuation(ch: char)
    | ExpectingKeyword(kw: string)
    | ExpectingArgumentName
    | UnexpectedToken

  /** Every way a run can abort. Lexical and syntax errors carry the cursor
      position; runtime errors do not. `HostTypeError` stands for the host's
      own TypeError (a property read on `undefined` or `null`), and
      `NotModelled` for host behaviour this model does not reproduce. */
  datatype Error =
    | LexicalError(ch: char, at: Position)
    | SyntaxError(issue: SyntaxIssue, at: Position)
    | UndefinedVariable(name: string)
    | UndefinedStuffedVariable(name: string)
    | FailedAssignment
    | NumberExpected
    | DivisionByZero
    | UnknownOperator(op: string)
    | LoopArity(count: nat)
    | NotCallable
    | HostTypeError
    | StackExhausted
    | NotModelled

  datatype Result<+T> = Ok(value: T) | Err(error: Error) {
    predicate IsFailure() { Err? }

    function PropagateFailure<U>(): Result<U>
      requires Err?
    {
      Err(error)
    }

    function Extract(): T
      requires Ok?
    {
      value
    }
  }
}
