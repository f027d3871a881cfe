/** Facts about real arithmetic the valuation modules share: whole powers and
    the sign and inverse rules the solver needs spelled out. */
module RealArith {

  /** `x ** n` for a whole exponent. */
  function Pow(x: real, n: nat): (r: real)
    ensures n == 0 ==> r == 1.0
    ensures x > 0.0 ==> r > 0.0
    ensures x != 0.0 ==> r != 0.0
  {
    if n == 0 then 1.0 else Pow(x, n - 1) * x
  }

  lemma MulAssoc(x: real, y: real, z: real)
    ensures x * y * z == x * (y * z)
  {
  }

  lemma DivMul(x: real, y: real)
    requires y != 0.0
    ensures x / y * y == x
  {
  }

  lemma ProductNonNegative(x: real, y: real)
    requires x >= 0.0 && y >= 0.0
    ensures x * y >= 0.0
  {
  }

  lemma ProductPositive(x: real, y: real)
    requires x > 0.0 && y > 0.0
    ensures x * y > 0.0
  {
  }

  lemma MulCancel(x: real, y: real, z: real)
    requires z != 0.0 && x * z == y * z
    ensures x == y
  {
  }

  /** A number that times a positive divisor gives a non-negative value is
      itself non-negative. */
  lemma QuotientNonNegative(q: real, d: real, v: real)
    requires d > 0.0 && q * d == v && v >= 0.0
    ensures q >= 0.0
  {
  }
}
