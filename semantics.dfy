/**
 * What the calculator computes, stated on values: the effect of one operator on the
 * operand stack, of one token, of a token sequence and of a whole `evaluate` call.
 * The methods of `Calculator.RpnCalculator` are proved to follow these functions.
 */
module Semantics {
  import opened Outcomes
  import opened Numerics
  import opened Literal
  import opened Tokenizer

  /** The Fibonacci numbers, F(0) = 0 and F(1) = 1. */
  function Fib(n: nat): nat {
    if n < 2 then n else Fib(n - 1) + Fib(n - 2)
  }

  /** The operator names `calculate` recognises. */
  predicate IsOperator(op: string) {
    op in {"+", "-", "*", "/", "^", "sqrt", "fib", "hist"}
  }

  /** How many operands an operator needs on the stack. */
  function Arity(op: string): nat {
    if op in {"+", "-", "*", "/", "^"} then 2
    else if op in {"sqrt", "fib"} then 1
    else 0
  }

  /** How many values an operator leaves in place of its operands. */
  function Produced(op: string): nat {
    if op == "hist" then 0 else 1
  }

  /** A binary operator on a stack `p + [a, b]`: pops `b`, then `a`, and pushes `f(a, b)`. */
  function Combine(s: seq<Double>, f: (Double, Double) -> Double): Result<seq<Double>> {
    if |s| < 2 then Failure(InsufficientOperands)
    else Success(s[..|s| - 2] + [f(s[|s| - 2], s[|s| - 1])])
  }

  /** The Fibonacci loop run `k` times; it does not run at all when `k` is negative. */
  function FibIndex(k: int): nat {
    if k < 0 then 0 else k
  }

  /** `/` on a stack `p + [a, b]`: a zero divisor `b` is an error, otherwise `p + [a / b]`. */
  function DivideTop(arith: Arith, s: seq<Double>): Result<seq<Double>> {
    if |s| < 2 then Failure(InsufficientOperands)
    else if arith.isZero(s[|s| - 1]) then Failure(DivideByZero)
    else Combine(s, arith.div)
  }

  /** `sqrt` on a stack `p + [a]`: a negative `a` is an error, otherwise `p + [sqrt(a)]`. */
  function SqrtTop(arith: Arith, s: seq<Double>): Result<seq<Double>> {
    if |s| < 1 then Failure(InsufficientOperands)
    else if arith.isNegative(s[|s| - 1]) then Failure(NegativeSqrt)
    else Success(s[..|s| - 1] + [arith.sqrt(s[|s| - 1])])
  }

  /** `fib` on a stack `p + [n]`: `n` must be a non-negative integer of at most 93; it is replaced by F(n). */
  function FibTop(arith: Arith, s: seq<Double>): Result<seq<Double>> {
    if |s| < 1 then Failure(InsufficientOperands)
    else
      var n := s[|s| - 1];
      if arith.isNegative(n) || !arith.isIntegral(n) then Failure(InvalidFibInput)
      else if arith.toInt(n) > 93 then Failure(FibOverflow)
      else Success(s[..|s| - 1] + [arith.fromInt(Fib(FibIndex(arith.toInt(n))))])
  }

  /** The effect of `calculate(op)` on the stack `s`, or the error it throws. */
  function Apply(arith: Arith, op: string, s: seq<Double>): Result<seq<Double>> {
    if op == "+" then Combine(s, arith.add)
    else if op == "-" then Combine(s, arith.sub)
    else if op == "*" then Combine(s, arith.mul)
    else if op == "/" then DivideTop(arith, s)
    else if op == "sqrt" then SqrtTop(arith, s)
    else if op == "^" then Combine(s, arith.pow)
    else if op == "fib" then FibTop(arith, s)
    else if op == "hist" then Success(s)
    else Failure(UnknownOperator(op))
  }

  /** One token of `evaluate`: a literal is converted and pushed, anything else is an operator. */
  function Step(arith: Arith, t: string, s: seq<Double>): Result<seq<Double>> {
    if IsNumeral(t) then
      match arith.parse(t)
      case None => Failure(InvalidLiteral(t))
      case Some(v) => Success(s + [v])
    else Apply(arith, t, s)
  }

  /** The tokens applied in order, stopping at the first one that fails. */
  function Run(arith: Arith, ts: seq<string>, s: seq<Double>): Result<seq<Double>>
    decreases |ts|
  {
    if ts == [] then Success(s)
    else
      match Step(arith, ts[0], s)
      case Failure(e) => Failure(e)
      case Success(s') => Run(arith, ts[1..], s')
  }

  /**
   * A whole `evaluate(expr)` on the stack `s`: the new stack, or the error. An empty
   * final stack is the error EmptyResult.
   */
  function Evaluation(arith: Arith, expr: string, s: seq<Double>): Result<seq<Double>> {
    match Run(arith, Tokens(expr), s)
    case Failure(e) => Failure(e)
    case Success(r) => if r == [] then Failure(EmptyResult) else Success(r)
  }

  /** How much one successful token changes the stack size. */
  function Net(t: string): int {
    if IsNumeral(t) then 1 else Produced(t) - Arity(t)
  }

  /** Every token is the presentation operator `hist`. */
  predicate OnlyHist(ts: seq<string>) {
    forall i | 0 <= i < |ts| :: ts[i] == "hist"
  }

  function NetSum(ts: seq<string>): int {
    if ts == [] then 0 else Net(ts[0]) + NetSum(ts[1..])
  }

  // ---------------------------------------------------------------------------
  // One operator

  /** Literals and operators are told apart: no operator name is a literal, so `-` subtracts. */
  lemma OperatorsAreNotNumerals(op: string)
    requires IsOperator(op)
    ensures !IsNumeral(op)
  {
    if op == "+" || op == "-" {
    } else if op == "*" || op == "/" || op == "^" {
      assert op[0] !in "0123456789.";
    } else {
      assert op[0] in "sfh";
    }
  }

  /** An operator fails for lack of operands exactly when the stack is shorter than its arity. */
  lemma ApplyUnderflow(arith: Arith, op: string, s: seq<Double>)
    ensures Apply(arith, op, s) == Failure(InsufficientOperands) <==> IsOperator(op) && |s| < Arity(op)
  {
  }

  /** An unrecognised operator always fails, and only unrecognised operators fail that way. */
  lemma ApplyUnknown(arith: Arith, op: string, s: seq<Double>)
    ensures !IsOperator(op) ==> Apply(arith, op, s) == Failure(UnknownOperator(op))
    ensures IsOperator(op) ==> !(Apply(arith, op, s).Failure? && Apply(arith, op, s).error.UnknownOperator?)
  {
  }

  /**
   * A successful operator replaces its operands at the top by its results and leaves
   * every element below them as it was.
   */
  lemma ApplyFrame(arith: Arith, op: string, s: seq<Double>)
    requires Apply(arith, op, s).Success?
    ensures IsOperator(op) && Arity(op) <= |s|
    ensures |Apply(arith, op, s).value| == |s| - Arity(op) + Produced(op)
    ensures Apply(arith, op, s).value[..|s| - Arity(op)] == s[..|s| - Arity(op)]
  {
  }

  /** `+ - * ^` on `p + [a, b]` give `p + [a op b]`. */
  lemma ApplyBinary(arith: Arith, op: string, p: seq<Double>, a: Double, b: Double)
    requires op in {"+", "-", "*", "^"}
    ensures Apply(arith, op, p + [a, b]) == Success(p + [
      if op == "+" then arith.add(a, b)
      else if op == "-" then arith.sub(a, b)
      else if op == "*" then arith.mul(a, b)
      else arith.pow(a, b)])
  {
  }

  /** `/` on `p + [a, b]`: a zero divisor is an error that leaves the stack as it was, otherwise `p + [a / b]`. */
  lemma ApplyDivide(arith: Arith, p: seq<Double>, a: Double, b: Double)
    ensures arith.isZero(b) ==> Apply(arith, "/", p + [a, b]) == Failure(DivideByZero)
    ensures !arith.isZero(b) ==> Apply(arith, "/", p + [a, b]) == Success(p + [arith.div(a, b)])
  {
  }

  /** `sqrt` on `p + [a]`: a negative operand is an error, otherwise `p + [sqrt(a)]`. */
  lemma ApplySqrt(arith: Arith, p: seq<Double>, a: Double)
    ensures arith.isNegative(a) ==> Apply(arith, "sqrt", p + [a]) == Failure(NegativeSqrt)
    ensures !arith.isNegative(a) ==> Apply(arith, "sqrt", p + [a]) == Success(p + [arith.sqrt(a)])
  {
  }

  /**
   * `fib` on `p + [n]`: a negative or non-integral `n` and an index above 93 are errors;
   * otherwise `n` is replaced by F(n).
   */
  lemma ApplyFib(arith: Arith, p: seq<Double>, n: Double)
    ensures arith.isNegative(n) || !arith.isIntegral(n) ==> Apply(arith, "fib", p + [n]) == Failure(InvalidFibInput)
    ensures !arith.isNegative(n) && arith.isIntegral(n) && arith.toInt(n) > 93 ==>
      Apply(arith, "fib", p + [n]) == Failure(FibOverflow)
    ensures !arith.isNegative(n) && arith.isIntegral(n) && 0 <= arith.toInt(n) <= 93 ==>
      Apply(arith, "fib", p + [n]) == Success(p + [arith.fromInt(Fib(arith.toInt(n)))])
  {
  }

  /** `hist` leaves the stack alone. */
  lemma ApplyHist(arith: Arith, s: seq<Double>)
    ensures Apply(arith, "hist", s) == Success(s)
  {
  }

  // ---------------------------------------------------------------------------
  // Tokens and token sequences

  /** A successful token changes the stack size by its net effect, and every token but `hist` leaves the stack non-empty. */
  lemma StepSize(arith: Arith, t: string, s: seq<Double>)
    requires Step(arith, t, s).Success?
    ensures |Step(arith, t, s).value| == |s| + Net(t)
    ensures t != "hist" ==> |Step(arith, t, s).value| > 0
    ensures t == "hist" ==> Step(arith, t, s).value == s
  {
  }

  /** The stack size after a successful run is the size before plus each token's net effect. */
  lemma {:induction false} RunSize(arith: Arith, ts: seq<string>, s: seq<Double>)
    requires Run(arith, ts, s).Success?
    ensures |Run(arith, ts, s).value| == |s| + NetSum(ts)
    decreases |ts|
  {
    if ts != [] {
      var s' := Step(arith, ts[0], s).value;
      StepSize(arith, ts[0], s);
      RunSize(arith, ts[1..], s');
    }
  }

  /** A run that fails at one token fails with that token's error; a run that succeeds at every token reaches its end. */
  lemma {:induction false} RunAppendToken(arith: Arith, ts: seq<string>, t: string, s: seq<Double>)
    requires Run(arith, ts, s).Success?
    ensures Run(arith, ts + [t], s) == Step(arith, t, Run(arith, ts, s).value)
    decreases |ts|
  {
    if ts == [] {
      assert ts + [t] == [t];
      assert [t][1..] == [];
    } else {
      assert (ts + [t])[1..] == ts[1..] + [t];
      RunAppendToken(arith, ts[1..], t, Step(arith, ts[0], s).value);
    }
  }

  /** A run ends on an empty stack exactly when it started on one and every token was `hist`. */
  lemma {:induction false} RunToEmpty(arith: Arith, ts: seq<string>, s: seq<Double>)
    ensures Run(arith, ts, s) == Success([]) <==> s == [] && OnlyHist(ts)
    decreases |ts|
  {
    if ts != [] {
      var t := ts[0];
      if Step(arith, t, s).Success? {
        var s' := Step(arith, t, s).value;
        StepSize(arith, t, s);
        RunToEmpty(arith, ts[1..], s');
        assert OnlyHist(ts) <==> t == "hist" && OnlyHist(ts[1..]) by {
          assert forall i | 1 <= i < |ts| :: ts[i] == ts[1..][i - 1];
        }
      } else if OnlyHist(ts) {
        assert t == "hist";
        OperatorsAreNotNumerals(t);
        assert false;
      }
    }
  }

  /** EmptyResult is never the error of a token: only the end-of-call check reports it. */
  lemma {:induction false} RunNeverEmptyResult(arith: Arith, ts: seq<string>, s: seq<Double>)
    ensures Run(arith, ts, s) != Failure(EmptyResult)
    decreases |ts|
  {
    if ts != [] && Step(arith, ts[0], s).Success? {
      RunNeverEmptyResult(arith, ts[1..], Step(arith, ts[0], s).value);
    }
  }

  /** EmptyResult is only reported when the call changed nothing: the stack was empty and every token was `hist`. */
  lemma EmptyResultChangesNothing(arith: Arith, expr: string, s: seq<Double>)
    ensures Evaluation(arith, expr, s) == Failure(EmptyResult) <==>
      s == [] && OnlyHist(Tokens(expr))
  {
    var ts := Tokens(expr);
    RunToEmpty(arith, ts, s);
    RunNeverEmptyResult(arith, ts, s);
    if Run(arith, ts, s).Success? {
      var r := Run(arith, ts, s).value;
      assert Run(arith, ts, s) == Success(r);
      assert Evaluation(arith, expr, s) == Failure(EmptyResult) <==> r == [];
    } else {
      assert Evaluation(arith, expr, s) == Run(arith, ts, s);
    }
  }

  // ---------------------------------------------------------------------------
  // Worked expressions

  lemma FibExamples()
    ensures Fib(10) == 55 && Fib(20) == 6765
  {
  }
}
