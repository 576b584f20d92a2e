/** The floating-point environment the calculator computes in. */
module Numerics {
  import opened Outcomes

  /** A stack value: the 64-bit pattern of an IEEE-754 double. */
  type Double = bv64

  /**
   * Every arithmetic operation, comparison and conversion the calculator applies to
   * doubles. The model never looks inside them: each is an arbitrary function, so
   * whatever is proved holds for every floating-point semantics.
   */
  datatype Arith = Arith(
    add: (Double, Double) -> Double,   // a + b
    sub: (Double, Double) -> Double,   // a - b
    mul: (Double, Double) -> Double,   // a * b
    div: (Double, Double) -> Double,   // a / b
    pow: (Double, Double) -> Double,   // std::pow(a, b)
    sqrt: Double -> Double,            // std::sqrt(a)
    isZero: Double -> bool,            // b == 0
    isNegative: Double -> bool,        // a < 0
    isIntegral: Double -> bool,        // std::floor(n) == n
    toInt: Double -> int,              // static_cast<int>(n)
    fromInt: int -> Double,            // static_cast<double>(a) of a long long
    parse: string -> Option<Double>    // std::stod, None where it throws
  )
}
