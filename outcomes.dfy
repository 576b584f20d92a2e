/** Failure-carrying return values that stand for the calculator's `throw` paths. */
module Outcomes {

  /** One constructor per way the calculator can throw. */
  datatype Error =
    | EmptyStack                     // pop on an empty stack
    | InsufficientOperands           // fewer operands than the operator consumes
    | DivideByZero                   // `/` with a zero divisor
    | NegativeSqrt                   // `sqrt` of a negative operand
    | InvalidFibInput                // `fib` of a negative or non-integral operand
    | FibOverflow                    // `fib` of an index above 93
    | UnknownOperator(op: string)    // a token that is neither a literal nor an operator
    | InvalidLiteral(token: string)  // a literal the number conversion rejects
    | EmptyResult                    // every token succeeded but the stack is empty

  datatype Option<+T> = None | Some(value: T)

  /** A value, or the error that was thrown instead. */
  datatype Result<+T> = Success(value: T) | Failure(error: Error)

  /** The result of an operation that returns nothing when it succeeds. */
  datatype Outcome = Pass | Fail(error: Error)
}
