/** Whole expressions worked through the model, for stacks and parse results given as assumptions. */
module Scenarios {
  import opened Outcomes
  import opened Numerics
  import opened Literal
  import opened Tokenizer
  import opened Semantics

  /** `5 5 +` on an empty stack leaves the single value 5 + 5. */
  lemma FiveFivePlus(arith: Arith, five: Double)
    requires arith.parse("5") == Some(five)
    ensures Evaluation(arith, "5 5 +", []) == Success([arith.add(five, five)])
  {
    assert WordLength("5 5 +") == 1;
    assert WordLength("5 +") == 1;
    assert WordLength("+") == 1;
    assert Tokens("5 5 +") == ["5", "5", "+"] by {
      assert "5 5 +"[..1] == "5" && "5 5 +"[1..] == " 5 +" && " 5 +"[1..] == "5 +";
      assert "5 +"[..1] == "5" && "5 +"[1..] == " +" && " +"[1..] == "+";
      assert "+"[..1] == "+" && "+"[1..] == "";
    }
    assert ["5", "5", "+"][1..] == ["5", "+"] && ["5", "+"][1..] == ["+"];
    assert [five] + [five] == [five, five];
    var s := [five, five];
    assert s[..0] == [] && s[0] == five && s[1] == five;
    assert Combine(s, arith.add).value == [arith.add(five, five)];
  }

  /** `1 0 /` fails with DivideByZero. */
  lemma OneZeroDivide(arith: Arith, one: Double, zero: Double)
    requires arith.parse("1") == Some(one) && arith.parse("0") == Some(zero)
    requires arith.isZero(zero)
    ensures Evaluation(arith, "1 0 /", []) == Failure(DivideByZero)
  {
    assert WordLength("1 0 /") == 1;
    assert WordLength("0 /") == 1;
    assert WordLength("/") == 1;
    assert Tokens("1 0 /") == ["1", "0", "/"] by {
      assert "1 0 /"[..1] == "1" && "1 0 /"[1..] == " 0 /" && " 0 /"[1..] == "0 /";
      assert "0 /"[..1] == "0" && "0 /"[1..] == " /" && " /"[1..] == "/";
      assert "/"[..1] == "/" && "/"[1..] == "";
    }
    assert ["1", "0", "/"][1..] == ["0", "/"] && ["0", "/"][1..] == ["/"];
    assert "/"[0] == '/';
    assert [one] + [zero] == [one, zero];
  }

  /** `-1 sqrt` fails with NegativeSqrt: the sign makes `-1` a literal, not a subtraction. */
  lemma MinusOneSqrt(arith: Arith, m: Double)
    requires arith.parse("-1") == Some(m) && arith.isNegative(m)
    ensures Evaluation(arith, "-1 sqrt", []) == Failure(NegativeSqrt)
  {
    assert WordLength("-1 sqrt") == 2;
    assert WordLength("sqrt") == 4;
    assert Tokens("-1 sqrt") == ["-1", "sqrt"] by {
      assert "-1 sqrt"[..2] == "-1" && "-1 sqrt"[2..] == " sqrt" && " sqrt"[1..] == "sqrt";
      assert "sqrt"[..4] == "sqrt" && "sqrt"[4..] == "";
    }
    assert ["-1", "sqrt"][1..] == ["sqrt"];
    assert IsNumeral("-1");
    OperatorsAreNotNumerals("sqrt");
  }

  /** `10 fib` leaves F(10) = 55. */
  lemma TenFib(arith: Arith, ten: Double)
    requires arith.parse("10") == Some(ten)
    requires !arith.isNegative(ten) && arith.isIntegral(ten) && arith.toInt(ten) == 10
    ensures Evaluation(arith, "10 fib", []) == Success([arith.fromInt(55)])
  {
    assert WordLength("10 fib") == 2;
    assert WordLength("fib") == 3;
    assert Tokens("10 fib") == ["10", "fib"] by {
      assert "10 fib"[..2] == "10" && "10 fib"[2..] == " fib" && " fib"[1..] == "fib";
      assert "fib"[..3] == "fib" && "fib"[3..] == "";
    }
    assert ["10", "fib"][1..] == ["fib"];
    assert IsNumeral("10");
    OperatorsAreNotNumerals("fib");
    FibExamples();
    var s := [ten];
    assert s[..0] == [] && s[0] == ten;
    assert FibTop(arith, s).value == [arith.fromInt(55)];
  }

  /** `94 fib` fails with FibOverflow. */
  lemma NinetyFourFib(arith: Arith, n: Double)
    requires arith.parse("94") == Some(n)
    requires !arith.isNegative(n) && arith.isIntegral(n) && arith.toInt(n) == 94
    ensures Evaluation(arith, "94 fib", []) == Failure(FibOverflow)
  {
    assert WordLength("94 fib") == 2;
    assert WordLength("fib") == 3;
    assert Tokens("94 fib") == ["94", "fib"] by {
      assert "94 fib"[..2] == "94" && "94 fib"[2..] == " fib" && " fib"[1..] == "fib";
      assert "fib"[..3] == "fib" && "fib"[3..] == "";
    }
    assert ["94", "fib"][1..] == ["fib"];
    assert IsNumeral("94");
    OperatorsAreNotNumerals("fib");
  }
}
