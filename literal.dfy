/** The grammar of numeric literals: which tokens the calculator pushes as numbers. */
module Literal {

  /** The test `std::isdigit` makes in the "C" locale. */
  predicate IsDigit(c: char) {
    '0' <= c <= '9'
  }

  predicate IsSign(c: char) {
    c == '+' || c == '-'
  }

  /** The number of sign characters in front of the digits: one or none. */
  function SignLength(t: string): (n: nat)
    ensures n <= 1
  {
    if |t| > 0 && IsSign(t[0]) then 1 else 0
  }

  /**
   * A literal is a non-empty token, optionally led by one `+` or `-` that is not the
   * whole token, whose remaining characters are digits or `.`, with at most one `.`.
   */
  predicate IsNumeral(t: string) {
    && |t| > 0
    && !(|t| == 1 && IsSign(t[0]))
    && (forall k | SignLength(t) <= k < |t| :: IsDigit(t[k]) || t[k] == '.')
    && (forall j, k | SignLength(t) <= j < k < |t| :: !(t[j] == '.' && t[k] == '.'))
  }

  /** Tokens the grammar accepts and rejects, among them the edge cases of the sign and the point. */
  lemma NumeralExamples()
    ensures !IsNumeral("") && !IsNumeral("-") && !IsNumeral("+")
    ensures IsNumeral(".") && IsNumeral("+.") && IsNumeral("-3.25") && IsNumeral("42")
    ensures !IsNumeral("1e5") && !IsNumeral("1.2.3") && !IsNumeral("--1") && !IsNumeral("+-")
  {
    assert "1e5"[1] == 'e';
    assert "1.2.3"[1] == '.' && "1.2.3"[3] == '.';
    assert "--1"[1] == '-';
    assert "+-"[1] == '-';
  }
}
