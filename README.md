# RPN calculator core, modelled in Dafny

This project models the `RPNCalculator` class of an interactive Reverse Polish
Notation calculator (`rpn_calc.cpp`). The class owns two pieces of state:

- an operand stack of doubles;
- a history of successful evaluations.

`evaluate(expr)` splits a line into tokens and takes a snapshot of the stack.
It then treats each token in order. A token that `isNumber` accepts is converted
with `std::stod` and pushed. Any other token goes to `calculate`, which applies
one of `+ - * / ^ sqrt fib hist` or throws. Any exception restores the snapshot
and propagates. An empty final stack is an error. Otherwise one history entry
is appended and the top of the stack is returned.

Files and modules:

- `outcomes.dfy` (`Outcomes`): the error kinds, one per `throw`, and the `Result`,
  `Outcome` and `Option` types that replace exceptions.
- `numerics.dfy` (`Numerics`): the value type `Double`, the 64-bit pattern of a
  double. The record `Arith` holds every floating-point operation, test and
  conversion the class uses: `+ - * /`, `pow`, `sqrt`, `== 0`, `< 0`,
  `floor(n) == n`, the two casts and `std::stod`. Each is an arbitrary function,
  so every result holds for any floating-point semantics.
- `literal.dfy` (`Literal`): the numeric-literal grammar `IsNumeral`, stated
  declaratively.
- `tokenizer.dfy` (`Tokenizer`): the token sequence `istringstream >>` produces,
  and its properties.
- `semantics.dfy` (`Semantics`): the stack effect of each operator (`Apply`), of
  a token (`Step`), of a token sequence (`Run`), and of a whole call
  (`Evaluation`). It also holds the Fibonacci specification and the lemmas about
  arity, frames, domain errors and the empty result.
- `calculator.dfy` (`Calculator`): the class `RpnCalculator`. Its fields are
  `stack` and `history`, and its methods mirror the C++ members. Each
  state-changing method is proved against the functions of `Semantics`.
- `scenarios.dfy` (`Scenarios`): whole expressions worked through the model.

Three details follow the code as written, where a description of the design
might suggest otherwise:

- `hist` is handled inside `calculate` (rpn_calc.cpp:128-136), not by the
  read loop.
- Domain errors push their operands back before throwing (rpn_calc.cpp:90-94,
  99-102, 112-119), even though the rollback in `evaluate` would undo the pops
  anyway.
- On an empty final stack the code throws without restoring the snapshot
  (rpn_calc.cpp:166-168). Treating this case as a rolled-back failure would
  give the same state. `Semantics.RunToEmpty` shows why: the stack ends empty
  only when it started empty and every token was `hist`, so the snapshot
  equals the final stack.

## Model

| member | source | states |
|---|---|---|
| `Literal.NumeralExamples` | rpn_calc.cpp:17-34 | the grammar rejects "", "-", "+", "1e5", "1.2.3", "--1" and "+-", and accepts ".", "+.", "-3.25" and "42" |
| `Calculator.RpnCalculator.IsNumber` | rpn_calc.cpp:17-34 | the loop with its `hasDecimal` flag and early returns accepts a token exactly when `IsNumeral` holds: non-empty, at most one leading sign that is not the whole token, then only digits and `.`, with at most one `.` |
| `Calculator.RpnCalculator.constructor` | rpn_calc.cpp:43 | a new calculator has an empty stack and an empty history |
| `Calculator.RpnCalculator.EnsureSize` | rpn_calc.cpp:36-40 | fails with InsufficientOperands exactly when the stack holds fewer than `required` values; it changes nothing |
| `Calculator.RpnCalculator.Push` | rpn_calc.cpp:45-47 | the value is appended on top and the elements below stay as they were |
| `Calculator.RpnCalculator.Pop` | rpn_calc.cpp:49-56 | on an empty stack fails with EmptyStack and leaves the stack unchanged; otherwise returns the last element and leaves exactly the prefix |
| `Calculator.RpnCalculator.Clear` | rpn_calc.cpp:58-60 | the stack becomes empty |
| `Calculator.RpnCalculator.Fibonacci` | rpn_calc.cpp:121-126 | the accumulator loop returns F(n) for n >= 0 and F(0) when the loop does not run; its invariant is a = F(i), b = F(i+1) |
| `Calculator.RpnCalculator.BinaryOperation` | rpn_calc.cpp:71-85 | `+ - * ^` turn `p + [a, b]` into `p + [f(a, b)]`; with fewer than two values they fail and nothing is popped |
| `Calculator.RpnCalculator.Divide` | rpn_calc.cpp:86-95 | `/` fails with DivideByZero and pushes `a` then `b` back, so the stack is exactly as before; otherwise `p + [a / b]` |
| `Calculator.RpnCalculator.SquareRoot` | rpn_calc.cpp:96-103 | `sqrt` of a negative operand fails with NegativeSqrt and leaves the stack as before; otherwise the top is replaced by its square root |
| `Calculator.RpnCalculator.FibonacciOperation` | rpn_calc.cpp:109-127 | `fib` fails with InvalidFibInput on a negative or non-integral top and with FibOverflow above 93, leaving the stack as before each time; otherwise the top n is replaced by F(n) |
| `Calculator.RpnCalculator.Calculate` | rpn_calc.cpp:70-140 | dispatches on the operator name. The new stack is the one `Apply` gives; on any failure the stack is unchanged and the error is `Apply`'s. The history is never changed, for `hist` too |
| `Calculator.RpnCalculator.Evaluate` | rpn_calc.cpp:142-173 | all or nothing. If `Evaluation` fails, for any token's error or for an empty result, the stack equals the snapshot, the history is unchanged and that error is returned. On success the stack keeps its new contents, the top is returned and exactly one entry (expression, top) is appended |
| `Tokenizer.WordLength` | rpn_calc.cpp:147-149 | a token extends up to, and not including, the next white-space character or the end of the text |
| `Tokenizer.TokensAreWords` | rpn_calc.cpp:147-149 | every token is non-empty and free of white space |
| `Tokenizer.TokensCoverText` | rpn_calc.cpp:147-149 | the tokens, read in order, spell out exactly the non-white-space characters of the line |
| `Tokenizer.BlankHasNoTokens` | rpn_calc.cpp:147-149 | a line made only of white space yields no tokens |
| `Semantics.OperatorsAreNotNumerals` | rpn_calc.cpp:155-159 | no operator name passes the literal test, so `-` and `+` alone are operators |
| `Semantics.ApplyUnderflow` | rpn_calc.cpp:70-127 | an operator fails with InsufficientOperands exactly when it is a known operator and the stack is shorter than its arity |
| `Semantics.ApplyUnknown` | rpn_calc.cpp:137-139 | a token that is not one of the eight operator names always fails with UnknownOperator, and a known operator never does |
| `Semantics.ApplyFrame` | rpn_calc.cpp:70-127 | a successful operator is known and had enough operands. The size changes by produced minus consumed, and every element below the consumed operands is untouched |
| `Semantics.ApplyBinary` | rpn_calc.cpp:71-108 | on `p + [a, b]`, `+ - * ^` give `p + [a + b]`, `p + [a - b]`, `p + [a * b]` and `p + [pow(a, b)]` |
| `Semantics.ApplyDivide` | rpn_calc.cpp:86-95 | on `p + [a, b]`, a zero `b` gives DivideByZero, otherwise `p + [a / b]` |
| `Semantics.ApplySqrt` | rpn_calc.cpp:96-103 | on `p + [a]`, a negative `a` gives NegativeSqrt, otherwise `p + [sqrt(a)]` |
| `Semantics.ApplyFib` | rpn_calc.cpp:109-127 | on `p + [n]`, a negative or non-integral `n` gives InvalidFibInput and an index above 93 gives FibOverflow; otherwise the result is `p + [F(n)]` |
| `Semantics.ApplyHist` | rpn_calc.cpp:128-136 | `hist` leaves the stack as it is |
| `Semantics.StepSize` | rpn_calc.cpp:154-160 | a successful token changes the stack size by its net effect. Every token but `hist` leaves the stack non-empty, and `hist` leaves it unchanged |
| `Semantics.RunSize` | rpn_calc.cpp:154-160 | after a successful token sequence, the stack size is the size before plus the sum of each token's produced-minus-consumed count |
| `Semantics.RunAppendToken` | rpn_calc.cpp:154-160 | replaying one more token continues from the stack the earlier tokens left, so tokens are applied strictly in order |
| `Semantics.RunToEmpty` | rpn_calc.cpp:166-168 | a token sequence ends on an empty stack exactly when it started on one and every token was `hist`, and then it ends where it started |
| `Semantics.RunNeverEmptyResult` | rpn_calc.cpp:161-168 | no token produces the EmptyResult error; only the final emptiness check reports it |
| `Semantics.EmptyResultChangesNothing` | rpn_calc.cpp:151-168 | `evaluate` reports EmptyResult exactly when the stack was empty and every token of the line was `hist`, so not restoring the snapshot there changes nothing |
| `Semantics.FibExamples` | rpn_calc.cpp:121-127 | F(10) = 55 and F(20) = 6765 |
| `Scenarios.FiveFivePlus` | rpn_calc.cpp:142-173 | `5 5 +` on an empty stack leaves `[5 + 5]` |
| `Scenarios.OneZeroDivide` | rpn_calc.cpp:86-95 | `1 0 /` fails with DivideByZero |
| `Scenarios.MinusOneSqrt` | rpn_calc.cpp:96-103 | `-1 sqrt` fails with NegativeSqrt, because `-1` is a literal and not a subtraction |
| `Scenarios.TenFib` | rpn_calc.cpp:109-127 | `10 fib` on an empty stack leaves `[55]` |
| `Scenarios.NinetyFourFib` | rpn_calc.cpp:116-120 | `94 fib` fails with FibOverflow |

## Left out

- `printStack`, `printHelp` and `main` (rpn_calc.cpp:62-68, 176-232): console output and the line-reading loop.
- The printing done by `hist` (rpn_calc.cpp:129-136): output only. The model keeps its effect on state, which is none.
- IEEE-754 arithmetic: `+ - * /`, `std::pow`, `std::sqrt`, the tests `b == 0`, `a < 0` and `floor(n) != n`, and both casts are the uninterpreted fields of `Numerics.Arith`.
- `std::stod`: modelled as the partial function `Arith.parse`. Where it throws, including on "." and "+." that `isNumber` accepts, the error is InvalidLiteral. Which strings it rejects is not modelled.
- `std::to_string` formatting of the history text: a history entry is the pair (expression, value) instead of the string `expr => value`.
- `std::istringstream` extraction: modelled as the function `Tokenizer.Tokens`, which splits on the six "C"-locale white-space characters. The stream's own character loop is library code.
- Calculator.RpnCalculator.Fibonacci: computes with unbounded integers. The `long long` overflow is not modelled. F(93) = 12200160415121876738 does not fit in 64 signed bits, and the loop computes one term past its result, so the C++ loop overflows for n >= 92 although the guard only rejects n > 93.
- Semantics.ApplyFib: `static_cast<int>` of a double too large for `int` (rpn_calc.cpp:116) is undefined behaviour. The model takes whatever integer `Arith.toInt` returns.
- The text of each exception message: an error is identified by its kind, and by the offending token for UnknownOperator and InvalidLiteral.
