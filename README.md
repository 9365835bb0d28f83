# Complex numbers, 3-vectors and 3x3 matrices over an exact field

A Dafny model of the arithmetic core of a small generic linear-algebra
library: `Complex<F>` (src/complex.rs), `Vector3<F>` (src/v3.rs) and
`Matrix3x3<F>` (src/mat3x3.rs). The scalar type `F` is modelled as Dafny's
`real`, an exact field, so every identity below holds exactly.

- `scalars.dfy`, module `Scalars`: two facts about `real` (squares are
  non-negative, a zero product has a zero factor) that the other modules
  share.
- `complex.dfy`, module `ComplexNumbers`: the value type `Complex` and its
  operators as functions. Componentwise `Add` and `Sub`, `Scale` (`Mul<F>`),
  the complex product `Mul`, scalar division `DivScalar` (`Div<F>`) and the
  complex quotient `Div`. The last two are modelled as written, quirks
  included (see "## Findings"). `DivScalarCorrected` and `DivCorrected` are
  the intended versions, with their round trips proved.
- `v3.dfy`, module `Vectors`: the value type `Vector3` and the by-value
  operators as functions: `Scale`, `DivScalar`, `Add`, `Sub`, `Dot` (the
  source's `Vector3 * Vector3 -> F`), `Cross` (`crossp`), `Len2` and `Proj`.
  The in-place operators `*=`, `/=`, `+=` and `-=` overwrite `x`, `y` and `z`
  one after the other. They are methods of the class `MutableVector3`. Each
  is proved to leave exactly the value that the by-value operator returns.
- `mat3x3.dfy`, module `Matrices`: `Matrix3x3` holds a 3x3 grid of rows
  (`Row` is a sequence of length 3, `Grid` a sequence of three rows). `Add`,
  `Sub`, `MulScalar` and `Mul` start from the all-zero default matrix and fill
  `res.m[i][j]` in nested `for` loops, as the source does. Each method is
  proved equal to a specification function (`Sum`, `Difference`, `Scaled`,
  `Product`) that defines all nine entries at once. `Unit` (`unit_matrix`),
  `Determinant`, `AddRow` and `MulRow` are functions. `AddRow` copies the
  grid and overwrites one row, as the source does.

Division by zero and row indices of 3 or more are faults of the scalar type
or of Rust's array indexing; the source does not handle them. The model
turns them into preconditions: `k != 0` for scalar division, a nonzero
denominator for the quotients, a nonzero `o . o` for `Proj`, and `i < 3` for
`AddRow` and `MulRow`.

src/mat3x3.rs ends at the two unused row helpers `add_row` and `mul_row`;
it has no linear-system solver, and this model has none either.

## Model

| member | source | states |
|---|---|---|
| `ComplexNumbers.Add` | src/complex.rs:68-74 | Computes the componentwise sum `(a.re + b.re, a.im + b.im)`. Its inverse is `AddSubInverse`. |
| `ComplexNumbers.Sub` | src/complex.rs:81-86 | Computes the componentwise difference `(a.re - b.re, a.im - b.im)`. |
| `ComplexNumbers.Scale` | src/complex.rs:30-35 | `Mul<F>`: computes `(a.re * k, a.im * k)`. |
| `ComplexNumbers.Mul` | src/complex.rs:17-21 | Computes the complex product `(a.re*b.re - a.im*b.im, a.re*b.im + a.im*b.re)`. |
| `ComplexNumbers.Div` | src/complex.rs:54-60 | As written: computes `((b.re*a.re - b.im*a.im) / d, (b.re*a.im - a.re*b.im) / d)` with `d = Denominator(b) = b.re^2 - b.im^2`. Defined only where `Denominator(b) != 0`. |
| `ComplexNumbers.DivCorrected` | src/complex.rs:54-60 | Intended quotient: multiplies by the conjugate of `b` over `b.re^2 + b.im^2`. Defined for every nonzero `b`. |
| `ComplexNumbers.AddSubInverse` | src/complex.rs:68-86 | Subtracting `b` undoes adding `b`, and adding `b` undoes subtracting it. |
| `ComplexNumbers.MulCommutative` | src/complex.rs:17-21 | The complex product is commutative. |
| `ComplexNumbers.MulUnitAndReal` | src/complex.rs:17-35 | `1 + 0i` is a two-sided unit of the product. Multiplying by `k + 0i` equals scaling by `k`. |
| `ComplexNumbers.DivScalar` | src/complex.rs:42-47 | As written: the two parts of `c / k` are equal, and scaling the result by `k` gives back `c.re` in the real part. Requires `k != 0`. |
| `ComplexNumbers.DivScalarCorrected` | src/complex.rs:42-47 | Intended scalar division: scaling `c / k` by `k` gives back `c`. |
| `ComplexNumbers.DivSelf` | src/complex.rs:54-60 | As written, `c / c == 1 + 0i` for every `c` whose denominator `re^2 - im^2` is nonzero. |
| `ComplexNumbers.DenominatorZero` | src/complex.rs:55 | The as-written denominator is zero exactly when `re == im` or `re == -im`. |
| `ComplexNumbers.DivCorrectedRoundTrip` | src/complex.rs:54-60 | Intended quotient: `(a / b) * b == a` for every nonzero `b`. |
| `ComplexNumbers.DivScalarLosesImaginary` | src/complex.rs:45 | As written, `(0 + 1i) / 1 == 0 + 0i`. The corrected version gives `0 + 1i`. |
| `ComplexNumbers.DivWrongQuotient` | src/complex.rs:54-60 | As written, `1 / i == i`, so `(1 / i) * i == -1`. |
| `ComplexNumbers.DivRejectsNonZero` | src/complex.rs:55 | As written, the nonzero divisor `1 + i` has denominator 0. Its squared modulus is 2. |
| `ComplexNumbers.DivCorrectedExample` | src/complex.rs:54-60 | Intended quotient: `1 / i == -i`. |
| `ComplexNumbers.MultiplicationExample` | src/complex.rs:94-99 | `(3 + i) * (3 + i) == 8 + 6i`. |
| `ComplexNumbers.DivisionExample` | src/complex.rs:101-106 | `(3 + i) / (3 + i) == 1 + 0i`. |
| `ComplexNumbers.AdditionExample` | src/complex.rs:108-114 | `(3 + 1i) + (2 + 4i) == 5 + 5i`. |
| `ComplexNumbers.ScalarMulExample` | src/complex.rs:116-121 | `(3 + 1i) * 8 == 24 + 8i`. |
| `Vectors.Scale` | src/v3.rs:30-36 | `Mul<F>`: computes `(v.x * k, v.y * k, v.z * k)`. |
| `Vectors.DivScalar` | src/v3.rs:66-72 | `Div<F>`: computes `(v.x / k, v.y / k, v.z / k)`. Defined only for `k != 0`. |
| `Vectors.Add` | src/v3.rs:119-125 | Computes the componentwise sum. |
| `Vectors.Sub` | src/v3.rs:155-161 | Computes the componentwise difference. |
| `Vectors.Dot` | src/v3.rs:103-105 | `Mul` with a scalar output: computes `v.x*w.x + v.y*w.y + v.z*w.z`. |
| `Vectors.Cross` | src/v3.rs:190-196 | `crossp`: computes `(a.y*b.z - b.y*a.z, a.z*b.x - b.z*a.x, a.x*b.y - b.x*a.y)`. |
| `Vectors.Proj` | src/v3.rs:217-221 | Computes `o` scaled by `(v . o) / (o . o)`. Defined only for `o . o != 0`. |
| `Vectors.Len2` | src/v3.rs:198-200 | The squared length is never negative, and it is zero exactly for the zero vector. |
| `Vectors.ScaleDivInverse` | src/v3.rs:30-72 | For `k != 0`, dividing by `k` undoes scaling by `k`, and the other way round. |
| `Vectors.AddSubInverse` | src/v3.rs:119-161 | `(v + w) - w == v` and `(v - w) + w == v`. |
| `Vectors.DotSymmetricLinear` | src/v3.rs:103-105 | The dot product is symmetric. It is linear in its first argument over scaling, sum and difference. |
| `Vectors.CrossAnticommutative` | src/v3.rs:190-196 | Each component of `a x b` is the negation of the same component of `b x a`. |
| `Vectors.CrossOrthogonal` | src/v3.rs:190-196 | `a x b` is orthogonal to `a` and to `b`, and `a x a` is the zero vector. |
| `Vectors.ProjOntoLine` | src/v3.rs:217-221 | For `o . o != 0`, `proj(v, o)` is a scalar multiple of `o`, and every multiple of `o` projects to itself. |
| `Vectors.ProjIdempotent` | src/v3.rs:217-221 | Projecting `proj(v, o)` onto `o` again gives `proj(v, o)`. |
| `Vectors.ProjResidualOrthogonal` | src/v3.rs:217-221 | `v - proj(v, o)` is orthogonal to `o`, so the projection is orthogonal. |
| `Vectors.MutableVector3.constructor` | src/v3.rs:4-17 | A vector variable created from a value holds that value. |
| `Vectors.MutableVector3.MulAssign` | src/v3.rs:48-52 | After `v *= k`, the variable holds `v * k`. |
| `Vectors.MutableVector3.DivAssign` | src/v3.rs:84-88 | After `v /= k`, with `k != 0`, the variable holds `v / k`. |
| `Vectors.MutableVector3.AddAssign` | src/v3.rs:137-141 | After `v += w`, the variable holds `v + w`. |
| `Vectors.MutableVector3.SubAssign` | src/v3.rs:173-177 | After `v -= w`, the variable holds `v - w`. |
| `Matrices.Unit` | src/mat3x3.rs:121-132 | `unit_matrix`: ones on the diagonal, zeros elsewhere. |
| `Matrices.Determinant` | src/mat3x3.rs:134-141 | Computes the six-term expansion `m00*m11*m22 + m10*m21*m02 + m20*m01*m12 - m02*m11*m20 - m01*m10*m22 - m00*m12*m21`, in the source's term order. |
| `Matrices.MulRow` | src/mat3x3.rs:148-154 | `mul_row`: computes row `i` of `a` with each entry times `k`. Defined only for `i < 3`. |
| `Matrices.Add` | src/mat3x3.rs:29-37 | The loop result's entry `(i, j)` is `a[i][j] + b[i][j]` for all `i, j < 3`. The result equals `Sum(a, b)`. |
| `Matrices.Sub` | src/mat3x3.rs:100-108 | The loop result's entry `(i, j)` is `a[i][j] - b[i][j]`. The result equals `Difference(a, b)`. |
| `Matrices.MulScalar` | src/mat3x3.rs:52-60 | The loop result scales each of the nine entries by `k`. The result equals `Scaled(a, k)`. |
| `Matrices.Mul` | src/mat3x3.rs:74-85 | The loop result's entry `(i, j)` is `a[i][0]*b[0][j] + a[i][1]*b[1][j] + a[i][2]*b[2][j]`. The result equals `Product(a, b)`. |
| `Matrices.SumDifferenceInverse` | src/mat3x3.rs:29-108 | `(A + B) - B == A` and `(A - B) + B == A`. |
| `Matrices.AddRow` | src/mat3x3.rs:142-146 | For `i < 3`, row `i` of the result is row `i` of `a` plus `row`, componentwise. The other two rows are unchanged. |
| `Matrices.MulRowScaled` | src/mat3x3.rs:148-154 | For `i < 3`, `mul_row(i, k)` is row `i` of `a * k`. With `k == 1` it is row `i` itself. |
| `Matrices.UnitIdentity` | src/mat3x3.rs:121-132 | The unit matrix is a left and a right identity: `U * M == M` and `M * U == M`. |
| `Matrices.DeterminantUnit` | src/mat3x3.rs:121-141 | `determinant(unit_matrix()) == 1`. |
| `Matrices.DeterminantZeroRow` | src/mat3x3.rs:134-141 | A matrix with a row of zeros has determinant 0. |
| `Matrices.DeterminantRowOperation` | src/mat3x3.rs:134-154 | For `i != j`, `add_row(i, mul_row(j, k))` leaves the determinant unchanged. |
| `Matrices.MatrixMultiplyExample` | src/mat3x3.rs:161-169 | The `matrix_multiply` test: the unit matrix times the given matrix, on either side, is that matrix. |

## Left out

- `Vector3::len` and `Vector3::normalized` (src/v3.rs:202-215): they convert to `f32` and take a square root. That is floating-point numerics, which has no exact counterpart over `real`.
- Instantiations of `F` other than an exact field. Integer `F` truncates on division, and `f32` rounds and has infinities and NaN. Neither is modelled; every operator is exact over `real`.
- Faults of the scalar type (division by zero) and of array indexing (row index 3 or more) are not modelled as behaviour. They are preconditions of the operators that can reach them.
- The trait bounds, and the derived `Debug`, `Clone`, `Copy`, `Default` and `PartialEq`. `Default` appears only as the all-zero matrix `Matrices.ZERO` that the loops start from. Equality is Dafny's equality of values.
- The `Ord` bound on the complex product, in place of `PartialOrd`. It restricts which types compile and has no run-time behaviour.

## Findings

| source | as written | input that shows it | evidently intended | confidence | as-written member | corrected member |
|---|---|---|---|---|---|---|
| src/complex.rs:45 | Scalar division stores `self.re / rhs` in `im`, so the imaginary part is lost. | `(0 + 1i) / 1` gives `0 + 0i` (`DivScalarLosesImaginary`). | `im: self.im / rhs`, so that `(c / k) * k == c`. | high; not executed | `ComplexNumbers.DivScalar` | `ComplexNumbers.DivScalarCorrected` |
| src/complex.rs:55-58 | Complex division divides by `re^2 - im^2` of the divisor, with numerators `b.re*a.re - b.im*a.im` and `b.re*a.im - a.re*b.im`. | `1 / i` gives `i`, so `(1 / i) * i == -1` (`DivWrongQuotient`). The nonzero divisor `1 + i` gives a zero denominator (`DivRejectsNonZero`). | Multiply by the conjugate over `re^2 + im^2`, so that `(a / b) * b == a` for every nonzero `b` (`DivCorrectedRoundTrip`). | high; not executed | `ComplexNumbers.Div` | `ComplexNumbers.DivCorrected` |
