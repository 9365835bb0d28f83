/**
 * 3x3 matrices over an exact scalar field (modelled as `real`), stored row
 * by row as in `Matrix3x3<F> { m: [[F; 3]; 3] }`.
 *
 * The source builds the entrywise sum, difference, scalar multiple and the
 * matrix product by starting from the all-zero default matrix and filling
 * `res.m[i][j]` in two nested `for` loops; those are the methods `Add`,
 * `Sub`, `MulScalar` and `Mul` below, each proved equal to a specification
 * function (`Sum`, `Difference`, `Scaled`, `Product`) that defines every
 * entry at once. `Unit`, `Determinant`, `AddRow` and `MulRow` are single
 * expressions in the source and functions here.
 */
module Matrices {

  /** `[F; 3]`: one row of three scalars. */
  type Row = r: seq<real> | |r| == 3 witness [0.0, 0.0, 0.0]

  const ZERO_ROW: Row := [0.0, 0.0, 0.0]

  /** `[[F; 3]; 3]`: three rows. */
  type Grid = g: seq<Row> | |g| == 3 witness [ZERO_ROW, ZERO_ROW, ZERO_ROW]

  datatype Matrix3x3 = Matrix3x3(m: Grid)

  /** `Matrix3x3::default()`: the matrix the loops start from, all entries 0. */
  const ZERO: Matrix3x3 := Matrix3x3([ZERO_ROW, ZERO_ROW, ZERO_ROW])

  // ---------------------------------------------------------------------
  // Specification functions: every entry defined at once
  // ---------------------------------------------------------------------

  /** The entrywise sum. */
  function Sum(a: Matrix3x3, b: Matrix3x3): Matrix3x3 {
    Matrix3x3(seq(3, i requires 0 <= i < 3 =>
      seq(3, j requires 0 <= j < 3 => a.m[i][j] + b.m[i][j])))
  }

  /** The entrywise difference. */
  function Difference(a: Matrix3x3, b: Matrix3x3): Matrix3x3 {
    Matrix3x3(seq(3, i requires 0 <= i < 3 =>
      seq(3, j requires 0 <= j < 3 => a.m[i][j] - b.m[i][j])))
  }

  /** Every entry times `k`. */
  function Scaled(a: Matrix3x3, k: real): Matrix3x3 {
    Matrix3x3(seq(3, i requires 0 <= i < 3 =>
      seq(3, j requires 0 <= j < 3 => a.m[i][j] * k)))
  }

  /** Row `i` of `a` dotted with column `j` of `b`. */
  function RowColumn(a: Matrix3x3, i: nat, b: Matrix3x3, j: nat): real
    requires i < 3 && j < 3
  {
    a.m[i][0] * b.m[0][j] + a.m[i][1] * b.m[1][j] + a.m[i][2] * b.m[2][j]
  }

  /** The matrix product: entry `(i, j)` is row `i` of `a` times column `j` of `b`. */
  function Product(a: Matrix3x3, b: Matrix3x3): Matrix3x3 {
    Matrix3x3(seq(3, i requires 0 <= i < 3 =>
      seq(3, j requires 0 <= j < 3 => RowColumn(a, i, b, j))))
  }

  // ---------------------------------------------------------------------
  // The operators, as the source computes them
  // ---------------------------------------------------------------------

  /** `impl Add for Matrix3x3`: fills the entrywise sum cell by cell. */
  method Add(a: Matrix3x3, b: Matrix3x3) returns (res: Matrix3x3)
    ensures forall i, j | 0 <= i < 3 && 0 <= j < 3 :: res.m[i][j] == a.m[i][j] + b.m[i][j]
    ensures res == Sum(a, b)
  {
    res := ZERO;
    for i := 0 to 3
      invariant forall p, q | 0 <= p < i && 0 <= q < 3 :: res.m[p][q] == a.m[p][q] + b.m[p][q]
    {
      for j := 0 to 3
        invariant forall p, q | 0 <= p < i && 0 <= q < 3 :: res.m[p][q] == a.m[p][q] + b.m[p][q]
        invariant forall q | 0 <= q < j :: res.m[i][q] == a.m[i][q] + b.m[i][q]
      {
        res := res.(m := res.m[i := res.m[i][j := a.m[i][j] + b.m[i][j]]]);
      }
    }
    EntrywiseEqual(res, Sum(a, b));
  }

  /** `impl Sub for Matrix3x3`: fills the entrywise difference cell by cell. */
  method Sub(a: Matrix3x3, b: Matrix3x3) returns (res: Matrix3x3)
    ensures forall i, j | 0 <= i < 3 && 0 <= j < 3 :: res.m[i][j] == a.m[i][j] - b.m[i][j]
    ensures res == Difference(a, b)
  {
    res := ZERO;
    for i := 0 to 3
      invariant forall p, q | 0 <= p < i && 0 <= q < 3 :: res.m[p][q] == a.m[p][q] - b.m[p][q]
    {
      for j := 0 to 3
        invariant forall p, q | 0 <= p < i && 0 <= q < 3 :: res.m[p][q] == a.m[p][q] - b.m[p][q]
        invariant forall q | 0 <= q < j :: res.m[i][q] == a.m[i][q] - b.m[i][q]
      {
        res := res.(m := res.m[i := res.m[i][j := a.m[i][j] - b.m[i][j]]]);
      }
    }
    EntrywiseEqual(res, Difference(a, b));
  }

  /** `impl Mul<F> for Matrix3x3`: fills the scalar multiple cell by cell. */
  method MulScalar(a: Matrix3x3, k: real) returns (res: Matrix3x3)
    ensures forall i, j | 0 <= i < 3 && 0 <= j < 3 :: res.m[i][j] == a.m[i][j] * k
    ensures res == Scaled(a, k)
  {
    res := ZERO;
    for i := 0 to 3
      invariant forall p, q | 0 <= p < i && 0 <= q < 3 :: res.m[p][q] == a.m[p][q] * k
    {
      for j := 0 to 3
        invariant forall p, q | 0 <= p < i && 0 <= q < 3 :: res.m[p][q] == a.m[p][q] * k
        invariant forall q | 0 <= q < j :: res.m[i][q] == a.m[i][q] * k
      {
        res := res.(m := res.m[i := res.m[i][j := a.m[i][j] * k]]);
      }
    }
    EntrywiseEqual(res, Scaled(a, k));
  }

  /** `impl Mul for Matrix3x3`: fills the product cell by cell, rows `i`, columns `j`. */
  method Mul(a: Matrix3x3, b: Matrix3x3) returns (res: Matrix3x3)
    ensures forall i, j | 0 <= i < 3 && 0 <= j < 3 ::
      res.m[i][j] == a.m[i][0] * b.m[0][j] + a.m[i][1] * b.m[1][j] + a.m[i][2] * b.m[2][j]
    ensures res == Product(a, b)
  {
    res := ZERO;
    for i := 0 to 3
      invariant forall p, q | 0 <= p < i && 0 <= q < 3 :: res.m[p][q] == RowColumn(a, p, b, q)
    {
      for j := 0 to 3
        invariant forall p, q | 0 <= p < i && 0 <= q < 3 :: res.m[p][q] == RowColumn(a, p, b, q)
        invariant forall q | 0 <= q < j :: res.m[i][q] == RowColumn(a, i, b, q)
      {
        res := res.(m := res.m[i := res.m[i][j :=
          a.m[i][0] * b.m[0][j] + a.m[i][1] * b.m[1][j] + a.m[i][2] * b.m[2][j]]]);
      }
    }
    EntrywiseEqual(res, Product(a, b));
  }

  /** `unit_matrix`: ones on the diagonal, zeros elsewhere. */
  function Unit(): Matrix3x3 {
    Matrix3x3([[1.0, 0.0, 0.0], [0.0, 1.0, 0.0], [0.0, 0.0, 1.0]])
  }

  /** `determinant`: the six-term expansion of the 3x3 determinant, in the source's term order. */
  function Determinant(a: Matrix3x3): real {
    a.m[0][0] * a.m[1][1] * a.m[2][2]
    + a.m[1][0] * a.m[2][1] * a.m[0][2]
    + a.m[2][0] * a.m[0][1] * a.m[1][2]
    - a.m[0][2] * a.m[1][1] * a.m[2][0]
    - a.m[0][1] * a.m[1][0] * a.m[2][2]
    - a.m[0][0] * a.m[1][2] * a.m[2][1]
  }

  /**
   * `add_row`: a copy of `a` whose row `i` is replaced by its componentwise
   * sum with `row`; the other two rows are those of `a`. An index past the
   * last row is an out-of-bounds fault, so the caller must pass `i < 3`.
   */
  function AddRow(a: Matrix3x3, i: nat, row: Row): (r: Matrix3x3)
    requires i < 3
    ensures forall q | 0 <= q < 3 :: r.m[i][q] == a.m[i][q] + row[q]
    ensures forall p | 0 <= p < 3 && p != i :: r.m[p] == a.m[p]
  {
    var t := a.m;
    Matrix3x3(t[i := [t[i][0] + row[0], t[i][1] + row[1], t[i][2] + row[2]]])
  }

  /**
   * `mul_row`: row `i` of `a` with each entry times `k`. An index past the
   * last row is an out-of-bounds fault, so the caller must pass `i < 3`.
   */
  function MulRow(a: Matrix3x3, i: nat, k: real): Row
    requires i < 3
  {
    [a.m[i][0] * k, a.m[i][1] * k, a.m[i][2] * k]
  }

  // ---------------------------------------------------------------------
  // Properties
  // ---------------------------------------------------------------------

  /** Two matrices with the same nine entries are equal. */
  lemma EntrywiseEqual(a: Matrix3x3, b: Matrix3x3)
    requires forall i, j | 0 <= i < 3 && 0 <= j < 3 :: a.m[i][j] == b.m[i][j]
    ensures a == b
  {
    forall i | 0 <= i < 3
      ensures a.m[i] == b.m[i]
    {
      assert forall j | 0 <= j < 3 :: a.m[i][j] == b.m[i][j];
    }
    assert a.m == b.m;
  }

  /** Subtracting `b` undoes adding `b`, and the other way round. */
  lemma SumDifferenceInverse(a: Matrix3x3, b: Matrix3x3)
    ensures Difference(Sum(a, b), b) == a
    ensures Sum(Difference(a, b), b) == a
  {
    EntrywiseEqual(Difference(Sum(a, b), b), a);
    EntrywiseEqual(Sum(Difference(a, b), b), a);
  }

  /** Row `i` of the scalar multiple is `mul_row(i, k)`; with `k == 1` that is row `i` itself. */
  lemma MulRowScaled(a: Matrix3x3, i: nat, k: real)
    requires i < 3
    ensures MulRow(a, i, k) == Scaled(a, k).m[i]
    ensures MulRow(a, i, 1.0) == a.m[i]
  {
    assert forall q | 0 <= q < 3 :: MulRow(a, i, k)[q] == Scaled(a, k).m[i][q];
  }

  /** The unit matrix is a left and a right identity of the product. */
  lemma UnitIdentity(a: Matrix3x3)
    ensures Product(Unit(), a) == a
    ensures Product(a, Unit()) == a
  {
    EntrywiseEqual(Product(Unit(), a), a);
    EntrywiseEqual(Product(a, Unit()), a);
  }

  /** The unit matrix has determinant 1. */
  lemma DeterminantUnit()
    ensures Determinant(Unit()) == 1.0
  {
  }

  /** A matrix with a row of zeros has determinant 0. */
  lemma DeterminantZeroRow(a: Matrix3x3, i: nat)
    requires i < 3
    requires a.m[i] == [0.0, 0.0, 0.0]
    ensures Determinant(a) == 0.0
  {
  }

  /** Adding a multiple of another row leaves the determinant unchanged. */
  lemma DeterminantRowOperation(a: Matrix3x3, i: nat, j: nat, k: real)
    requires i < 3 && j < 3 && i != j
    ensures Determinant(AddRow(a, i, MulRow(a, j, k))) == Determinant(a)
  {
  }

  /** The `matrix_multiply` unit test: the unit matrix leaves a given matrix unchanged on both sides. */
  lemma MatrixMultiplyExample()
    ensures Product(Unit(), Matrix3x3([[3.0, 2.0, 5.0], [2.0, -1.0, -3.0], [4.0, -2.0, 3.0]]))
         == Matrix3x3([[3.0, 2.0, 5.0], [2.0, -1.0, -3.0], [4.0, -2.0, 3.0]])
    ensures Product(Matrix3x3([[3.0, 2.0, 5.0], [2.0, -1.0, -3.0], [4.0, -2.0, 3.0]]), Unit())
         == Matrix3x3([[3.0, 2.0, 5.0], [2.0, -1.0, -3.0], [4.0, -2.0, 3.0]])
  {
    UnitIdentity(Matrix3x3([[3.0, 2.0, 5.0], [2.0, -1.0, -3.0], [4.0, -2.0, 3.0]]));
  }
}
