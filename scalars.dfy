/**
 * Facts about the scalar field `real` that the vector and complex proofs
 * share.
 */
module Scalars {

  /** A square is never negative, and only 0 squares to 0. */
  lemma SquareNonNegative(x: real)
    ensures x * x >= 0.0
    ensures x * x == 0.0 ==> x == 0.0
  {
    if x < 0.0 {
      assert x * x == (-x) * (-x);
    }
    if x * x == 0.0 {
      ZeroProduct(x, x);
    }
  }

  /** A product is zero only when one of its factors is. */
  lemma ZeroProduct(x: real, y: real)
    requires x * y == 0.0
    ensures x == 0.0 || y == 0.0
  {
  }
}
