/** The calculator object: an operand stack and a history that its methods update in place. */
module Calculator {
  import opened Outcomes
  import opened Numerics
  import opened Literal
  import opened Tokenizer
  import opened Semantics

  /** A history record: the expression as typed and the value it produced. */
  datatype Entry = Entry(expr: string, value: Double)

  /**
   * The operator call `o` took the stack from `before` to `after` as `spec` says: the
   * stack `spec` gives on success, the untouched stack and the same error on failure.
   */
  predicate Realizes(spec: Result<seq<Double>>, o: Outcome, before: seq<Double>, after: seq<Double>) {
    match spec
    case Success(s) => o == Pass && after == s
    case Failure(e) => o == Fail(e) && after == before
  }

  class RpnCalculator {
    /** The floating-point operations the calculator uses. */
    const arith: Arith
    /** The operand stack; the top is the last element. */
    var stack: seq<Double>
    /** One entry per successful evaluation, oldest first. */
    var history: seq<Entry>

    constructor (arith: Arith)
      ensures this.arith == arith && stack == [] && history == []
    {
      this.arith := arith;
      stack := [];
      history := [];
    }

    /** Decides the literal grammar in one left-to-right pass, tracking whether a `.` was seen. */
    static method IsNumber(token: string) returns (b: bool)
      ensures b == IsNumeral(token)
    {
      if |token| == 0 {
        return false;
      }
      var start := 0;
      if token[0] == '+' || token[0] == '-' {
        if |token| == 1 {
          return false;
        }
        start := 1;
      }
      var hasDecimal := false;
      var i := start;
      while i < |token|
        invariant start == SignLength(token) <= i <= |token|
        invariant forall k | start <= k < i :: IsDigit(token[k]) || token[k] == '.'
        invariant forall j, k | start <= j < k < i :: !(token[j] == '.' && token[k] == '.')
        invariant hasDecimal <==> exists k | start <= k < i :: token[k] == '.'
      {
        if token[i] == '.' {
          if hasDecimal {
            var k :| start <= k < i && token[k] == '.';
            assert token[k] == '.' && token[i] == '.';
            return false;
          }
          hasDecimal := true;
        } else if !IsDigit(token[i]) {
          return false;
        }
        i := i + 1;
      }
      return true;
    }

    /** Fails, changing nothing, exactly when fewer than `required` operands are on the stack. */
    method EnsureSize(required: nat) returns (o: Outcome)
      ensures o == (if |stack| < required then Fail(InsufficientOperands) else Pass)
    {
      if |stack| < required {
        return Fail(InsufficientOperands);
      }
      return Pass;
    }

    method Push(value: Double)
      modifies this`stack
      ensures stack == old(stack) + [value]
    {
      stack := stack + [value];
    }

    /** Removes and returns the top; on an empty stack fails and changes nothing. */
    method Pop() returns (r: Result<Double>)
      modifies this`stack
      ensures old(stack) == [] ==> r == Failure(EmptyStack) && stack == old(stack)
      ensures old(stack) != [] ==>
        r == Success(old(stack)[|old(stack)| - 1]) && stack == old(stack)[..|old(stack)| - 1]
    {
      if |stack| == 0 {
        return Failure(EmptyStack);
      }
      var top := stack[|stack| - 1];
      stack := stack[..|stack| - 1];
      return Success(top);
    }

    method Clear()
      modifies this`stack
      ensures stack == []
    {
      stack := [];
    }

    /** The Fibonacci accumulator loop: F(n) for `n >= 0`, F(0) when the loop does not run. */
    static method Fibonacci(n: int) returns (a: int)
      ensures a == Fib(FibIndex(n))
    {
      a := 0;
      var b := 1;
      var i := 0;
      while i < n
        invariant 0 <= i <= FibIndex(n)
        invariant a == Fib(i) && b == Fib(i + 1)
      {
        var c := a + b;
        a := b;
        b := c;
        i := i + 1;
      }
    }

    /** `+ - * ^`: checks for two operands, pops `b`, then `a`, and pushes `f(a, b)`. */
    method BinaryOperation(f: (Double, Double) -> Double) returns (o: Outcome)
      modifies this`stack
      ensures Realizes(Combine(old(stack), f), o, old(stack), stack)
    {
      o := EnsureSize(2);
      if o.Fail? {
        return;
      }
      var b := Pop();
      var a := Pop();
      Push(f(a.value, b.value));
    }

    /** `/`: on a zero divisor both operands are pushed back, in their order, before failing. */
    method Divide() returns (o: Outcome)
      modifies this`stack
      ensures Realizes(DivideTop(arith, old(stack)), o, old(stack), stack)
    {
      o := EnsureSize(2);
      if o.Fail? {
        return;
      }
      var b := Pop();
      var a := Pop();
      if arith.isZero(b.value) {
        Push(a.value);
        Push(b.value);
        assert stack == old(stack);
        return Fail(DivideByZero);
      }
      Push(arith.div(a.value, b.value));
    }

    /** `sqrt`: a negative operand is pushed back before failing. */
    method SquareRoot() returns (o: Outcome)
      modifies this`stack
      ensures Realizes(SqrtTop(arith, old(stack)), o, old(stack), stack)
    {
      o := EnsureSize(1);
      if o.Fail? {
        return;
      }
      var a := Pop();
      if arith.isNegative(a.value) {
        Push(a.value);
        return Fail(NegativeSqrt);
      }
      Push(arith.sqrt(a.value));
    }

    /** `fib`: an operand that is rejected is pushed back before failing. */
    method FibonacciOperation() returns (o: Outcome)
      modifies this`stack
      ensures Realizes(FibTop(arith, old(stack)), o, old(stack), stack)
    {
      o := EnsureSize(1);
      if o.Fail? {
        return;
      }
      var n := Pop();
      if arith.isNegative(n.value) || !arith.isIntegral(n.value) {
        Push(n.value);
        return Fail(InvalidFibInput);
      }
      var intN := arith.toInt(n.value);
      if intN > 93 {
        Push(n.value);
        return Fail(FibOverflow);
      }
      var a := Fibonacci(intN);
      Push(arith.fromInt(a));
    }

    /**
     * Applies one operator. On success the stack is the one `Apply` gives; on failure it
     * is the stack before the call, the operands popped before a domain error having
     * been pushed back. The history is never changed.
     */
    method Calculate(operation: string) returns (o: Outcome)
      modifies this`stack
      ensures Realizes(Apply(arith, operation, old(stack)), o, old(stack), stack)
      ensures history == old(history)
    {
      if operation == "+" {
        o := BinaryOperation(arith.add);
      } else if operation == "-" {
        o := BinaryOperation(arith.sub);
      } else if operation == "*" {
        o := BinaryOperation(arith.mul);
      } else if operation == "/" {
        o := Divide();
      } else if operation == "sqrt" {
        o := SquareRoot();
      } else if operation == "^" {
        o := BinaryOperation(arith.pow);
      } else if operation == "fib" {
        o := FibonacciOperation();
      } else if operation == "hist" {
        // Listing the history is output only.
        o := Pass;
      } else {
        o := Fail(UnknownOperator(operation));
      }
    }

    /**
     * Evaluates a line atomically. On failure the stack is restored to the snapshot taken
     * before the first token and the history is unchanged; on success the stack keeps its
     * new contents, its top is returned and exactly one history entry is appended.
     */
    method Evaluate(expr: string) returns (r: Result<Double>)
      modifies this`stack, this`history
      ensures Evaluation(arith, expr, old(stack)).Failure? ==>
        && r == Failure(Evaluation(arith, expr, old(stack)).error)
        && stack == old(stack)
        && history == old(history)
      ensures Evaluation(arith, expr, old(stack)).Success? ==>
        && stack == Evaluation(arith, expr, old(stack)).value
        && |stack| > 0
        && r == Success(stack[|stack| - 1])
        && history == old(history) + [Entry(expr, stack[|stack| - 1])]
    {
      var tokens := Tokens(expr);
      var originalStack := stack;
      var i := 0;
      while i < |tokens|
        invariant 0 <= i <= |tokens|
        invariant history == old(history)
        invariant Run(arith, tokens, originalStack) == Run(arith, tokens[i..], stack)
      {
        var t := tokens[i];
        assert tokens[i..][0] == t && tokens[i..][1..] == tokens[i + 1..];
        var o: Outcome;
        var numeric := IsNumber(t);
        if numeric {
          var v := arith.parse(t);
          if v.None? {
            o := Fail(InvalidLiteral(t));
          } else {
            Push(v.value);
            o := Pass;
          }
        } else {
          o := Calculate(t);
        }
        if o.Fail? {
          stack := originalStack;
          return Failure(o.error);
        }
        i := i + 1;
      }
      if |stack| == 0 {
        RunToEmpty(arith, tokens, originalStack);
        return Failure(EmptyResult);
      }
      history := history + [Entry(expr, stack[|stack| - 1])];
      return Success(stack[|stack| - 1]);
    }
  }
}
