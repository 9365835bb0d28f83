/**
 * Complex numbers over an exact scalar field (modelled as `real`), with the
 * arithmetic operators of `Complex<F>`: componentwise add and sub, scaling by
 * a bare scalar, division by a bare scalar, complex product and complex
 * quotient. Every operator builds a new value; nothing is updated in place.
 *
 * Two operators are modelled exactly as written, quirks included:
 *  - `DivScalar` stores `re / k` in BOTH parts (the imaginary part is lost);
 *  - `Div` divides by `re^2 - im^2` of the divisor instead of its squared
 *    modulus `re^2 + im^2`.
 * `DivScalarCorrected` and `DivCorrected` are the evidently intended versions.
 */
module ComplexNumbers {

  import opened Scalars

  datatype Complex = Complex(re: real, im: real)

  const ONE: Complex := Complex(1.0, 0.0)

  /** `impl Add for Complex`: componentwise sum. */
  function Add(a: Complex, b: Complex): Complex {
    Complex(a.re + b.re, a.im + b.im)
  }

  /** `impl Sub for Complex`: componentwise difference. */
  function Sub(a: Complex, b: Complex): Complex {
    Complex(a.re - b.re, a.im - b.im)
  }

  /** `impl Mul<F> for Complex`: both parts scaled by `k`. */
  function Scale(a: Complex, k: real): Complex {
    Complex(a.re * k, a.im * k)
  }

  /** `impl Mul for Complex`: `(a + bi)(c + di) = (ac - bd) + (ad + bc)i`. */
  function Mul(a: Complex, b: Complex): Complex {
    Complex(a.re * b.re - a.im * b.im, a.re * b.im + a.im * b.re)
  }

  /**
   * `impl Div<F> for Complex`, as written: the imaginary part of the result
   * is `a.re / k`, not `a.im / k`. Division by zero is a fault of the
   * scalar type, so the caller must not pass `k == 0`.
   */
  function DivScalar(a: Complex, k: real): (r: Complex)
    requires k != 0.0
    ensures r.im == r.re
    ensures Scale(r, k).re == a.re
  {
    Complex(a.re / k, a.re / k)
  }

  /** The divisor `Div` uses, as written: `re^2 - im^2` of the divisor. */
  function Denominator(b: Complex): real {
    b.re * b.re - b.im * b.im
  }

  /**
   * `impl Div for Complex`, as written: numerators
   * `b.re * a.re - b.im * a.im` and `b.re * a.im - a.re * b.im`, both over
   * `Denominator(b)`. Defined only where that denominator is nonzero.
   */
  function Div(a: Complex, b: Complex): Complex
    requires Denominator(b) != 0.0
  {
    var d := Denominator(b);
    Complex((b.re * a.re - b.im * a.im) / d, (b.re * a.im - a.re * b.im) / d)
  }

  /** Squared modulus, the denominator of the textbook quotient. */
  function Norm2(b: Complex): (n: real)
    ensures n >= 0.0
    ensures n == 0.0 <==> b == Complex(0.0, 0.0)
  {
    SquareNonNegative(b.re);
    SquareNonNegative(b.im);
    b.re * b.re + b.im * b.im
  }

  /** Scalar division with the imaginary part divided as well. */
  function DivScalarCorrected(a: Complex, k: real): (r: Complex)
    requires k != 0.0
    ensures Scale(r, k) == a
  {
    Complex(a.re / k, a.im / k)
  }

  /** Quotient by multiplication with the conjugate over the squared modulus. */
  function DivCorrected(a: Complex, b: Complex): Complex
    requires b != Complex(0.0, 0.0)
  {
    var n := Norm2(b);
    Complex((a.re * b.re + a.im * b.im) / n, (a.im * b.re - a.re * b.im) / n)
  }

  // ---------------------------------------------------------------------
  // Properties of the operators
  // ---------------------------------------------------------------------

  /** Subtracting what was added gives back the original, and vice versa. */
  lemma AddSubInverse(a: Complex, b: Complex)
    ensures Sub(Add(a, b), b) == a
    ensures Add(Sub(a, b), b) == a
  {
  }

  /** The complex product is commutative. */
  lemma MulCommutative(a: Complex, b: Complex)
    ensures Mul(a, b) == Mul(b, a)
  {
  }

  /** The complex product has `ONE` as unit and agrees with `Scale` on real factors. */
  lemma MulUnitAndReal(a: Complex, k: real)
    ensures Mul(a, ONE) == a && Mul(ONE, a) == a
    ensures Mul(a, Complex(k, 0.0)) == Scale(a, k)
  {
  }

  /**
   * As written, `Div` still maps every admissible `c` to `1 + 0i` when
   * dividing it by itself, and the imaginary part of `c / c` is always 0.
   */
  lemma DivSelf(c: Complex)
    requires Denominator(c) != 0.0
    ensures Div(c, c) == ONE
  {
  }

  /** `Div` is undefined exactly when the divisor's two parts have equal magnitude. */
  lemma DenominatorZero(b: Complex)
    ensures Denominator(b) == 0.0 <==> (b.re == b.im || b.re == -b.im)
  {
  }

  /** The corrected quotient undoes the product: `(a / b) * b == a`. */
  lemma DivCorrectedRoundTrip(a: Complex, b: Complex)
    requires b != Complex(0.0, 0.0)
    ensures Mul(DivCorrected(a, b), b) == a
  {
  }

  // ---------------------------------------------------------------------
  // The discrepancies of the as-written division operators
  // ---------------------------------------------------------------------

  /** As written, dividing `i` by 1 yields `0 + 0i`, not `i`. */
  lemma DivScalarLosesImaginary()
    ensures DivScalar(Complex(0.0, 1.0), 1.0) == Complex(0.0, 0.0)
    ensures DivScalarCorrected(Complex(0.0, 1.0), 1.0) == Complex(0.0, 1.0)
  {
  }

  /** As written, `1 / i` yields `i`, so multiplying back by `i` gives `-1`, not `1`. */
  lemma DivWrongQuotient()
    ensures Div(ONE, Complex(0.0, 1.0)) == Complex(0.0, 1.0)
    ensures Mul(Div(ONE, Complex(0.0, 1.0)), Complex(0.0, 1.0)) == Complex(-1.0, 0.0)
  {
  }

  /** As written, the nonzero divisor `1 + i` is rejected; the corrected quotient accepts it. */
  lemma DivRejectsNonZero()
    ensures Denominator(Complex(1.0, 1.0)) == 0.0
    ensures Norm2(Complex(1.0, 1.0)) == 2.0
  {
  }

  /** The corrected quotient gives `1 / i == -i`. */
  lemma DivCorrectedExample()
    ensures DivCorrected(ONE, Complex(0.0, 1.0)) == Complex(0.0, -1.0)
  {
  }

  // ---------------------------------------------------------------------
  // The unit tests of complex.rs, as lemmas
  // ---------------------------------------------------------------------

  lemma MultiplicationExample()
    ensures Mul(Complex(3.0, 1.0), Complex(3.0, 1.0)) == Complex(8.0, 6.0)
  {
  }

  lemma DivisionExample()
    ensures Div(Complex(3.0, 1.0), Complex(3.0, 1.0)) == Complex(1.0, 0.0)
  {
  }

  lemma AdditionExample()
    ensures Add(Complex(3.0, 1.0), Complex(2.0, 4.0)) == Complex(5.0, 5.0)
  {
  }

  lemma ScalarMulExample()
    ensures Scale(Complex(3.0, 1.0), 8.0) == Complex(24.0, 8.0)
  {
  }
}
