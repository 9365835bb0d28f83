/**
 * Three-component vectors over an exact scalar field (modelled as `real`).
 *
 * The by-value operators of `Vector3<F>` (scaling, scalar division, sum,
 * difference, the dot product written as `Vector3 * Vector3`, the cross
 * product, the squared length and the orthogonal projection) are functions
 * on the value type `Vector3`. The in-place operators (`*=`, `/=`, `+=`,
 * `-=`) update the three fields of a vector one after the other; they are
 * methods of the class `MutableVector3`, each proved to leave the same value
 * the by-value operator returns.
 */
module Vectors {

  import opened Scalars

  datatype Vector3 = Vector3(x: real, y: real, z: real)

  const ZERO: Vector3 := Vector3(0.0, 0.0, 0.0)

  /** `impl Mul<F> for Vector3`: every component times `k`. */
  function Scale(v: Vector3, k: real): Vector3 {
    Vector3(v.x * k, v.y * k, v.z * k)
  }

  /**
   * `impl Div<F> for Vector3`: every component over `k`. Division by zero is
   * a fault of the scalar type, so the caller must not pass `k == 0`.
   */
  function DivScalar(v: Vector3, k: real): Vector3
    requires k != 0.0
  {
    Vector3(v.x / k, v.y / k, v.z / k)
  }

  /** `impl Add for Vector3`: componentwise sum. */
  function Add(v: Vector3, w: Vector3): Vector3 {
    Vector3(v.x + w.x, v.y + w.y, v.z + w.z)
  }

  /** `impl Sub for Vector3`: componentwise difference. */
  function Sub(v: Vector3, w: Vector3): Vector3 {
    Vector3(v.x - w.x, v.y - w.y, v.z - w.z)
  }

  /** `impl Mul for Vector3`, whose output is a scalar: the standard dot product. */
  function Dot(v: Vector3, w: Vector3): real {
    v.x * w.x + v.y * w.y + v.z * w.z
  }

  /** `crossp`: the right-handed cross product. */
  function Cross(a: Vector3, b: Vector3): Vector3 {
    Vector3(a.y * b.z - b.y * a.z, a.z * b.x - b.z * a.x, a.x * b.y - b.x * a.y)
  }

  /**
   * `len2`: the vector dotted with itself. It is never negative and it is
   * zero for the zero vector only.
   */
  function Len2(v: Vector3): (r: real)
    ensures r >= 0.0
    ensures r == 0.0 <==> v == ZERO
  {
    SquareNonNegative(v.x);
    SquareNonNegative(v.y);
    SquareNonNegative(v.z);
    Dot(v, v)
  }

  /**
   * `proj`: the orthogonal projection of `v` onto `o`, that is `o` scaled by
   * `(v . o) / (o . o)`. Defined only for `o . o != 0`.
   */
  function Proj(v: Vector3, o: Vector3): Vector3
    requires Dot(o, o) != 0.0
  {
    var t := Dot(v, o) / Dot(o, o);
    Scale(o, t)
  }

  // ---------------------------------------------------------------------
  // Properties of the operators
  // ---------------------------------------------------------------------

  /** Dividing by `k` undoes scaling by `k`, and the other way round. */
  lemma ScaleDivInverse(v: Vector3, k: real)
    requires k != 0.0
    ensures DivScalar(Scale(v, k), k) == v
    ensures Scale(DivScalar(v, k), k) == v
  {
  }

  /** Subtracting `w` undoes adding `w`, and the other way round. */
  lemma AddSubInverse(v: Vector3, w: Vector3)
    ensures Sub(Add(v, w), w) == v
    ensures Add(Sub(v, w), w) == v
  {
  }

  /** The dot product is symmetric and linear in its first argument. */
  lemma DotSymmetricLinear(u: Vector3, v: Vector3, w: Vector3, k: real)
    ensures Dot(v, w) == Dot(w, v)
    ensures Dot(Scale(v, k), w) == k * Dot(v, w)
    ensures Dot(Add(u, v), w) == Dot(u, w) + Dot(v, w)
    ensures Dot(Sub(u, v), w) == Dot(u, w) - Dot(v, w)
  {
  }

  /** Swapping the operands of the cross product negates every component. */
  lemma CrossAnticommutative(a: Vector3, b: Vector3)
    ensures Cross(a, b).x == -Cross(b, a).x
    ensures Cross(a, b).y == -Cross(b, a).y
    ensures Cross(a, b).z == -Cross(b, a).z
  {
  }

  /** The cross product is orthogonal to both operands, and `a x a` is zero. */
  lemma CrossOrthogonal(a: Vector3, b: Vector3)
    ensures Dot(Cross(a, b), a) == 0.0
    ensures Dot(Cross(a, b), b) == 0.0
    ensures Cross(a, a) == ZERO
  {
  }

  /** The projection is a multiple of `o`, and it fixes every multiple of `o`. */
  lemma ProjOntoLine(v: Vector3, o: Vector3, t: real)
    requires Dot(o, o) != 0.0
    ensures exists s :: Proj(v, o) == Scale(o, s)
    ensures Proj(Scale(o, t), o) == Scale(o, t)
  {
    var n := Dot(o, o);
    assert Proj(v, o) == Scale(o, Dot(v, o) / n);
    DotSymmetricLinear(o, o, o, t);
    assert Dot(Scale(o, t), o) == t * n;
    assert (t * n) / n == t;
  }

  /** Projecting twice onto the same vector is the same as projecting once. */
  lemma ProjIdempotent(v: Vector3, o: Vector3)
    requires Dot(o, o) != 0.0
    ensures Proj(Proj(v, o), o) == Proj(v, o)
  {
  }

  /** What remains after removing the projection is orthogonal to `o`. */
  lemma ProjResidualOrthogonal(v: Vector3, o: Vector3)
    requires Dot(o, o) != 0.0
    ensures Dot(Sub(v, Proj(v, o)), o) == 0.0
  {
  }

  // ---------------------------------------------------------------------
  // The in-place operators
  // ---------------------------------------------------------------------

  /** A vector variable whose components the `*Assign` operators overwrite. */
  class MutableVector3 {
    var x: real
    var y: real
    var z: real

    /** The value currently held. */
    function Value(): Vector3
      reads this
    {
      Vector3(x, y, z)
    }

    constructor (v: Vector3)
      ensures Value() == v
    {
      x, y, z := v.x, v.y, v.z;
    }

    /** `mul_assign`: the held value becomes `Scale(old value, k)`. */
    method MulAssign(k: real)
      modifies this
      ensures Value() == Scale(old(Value()), k)
    {
      x := x * k;
      y := y * k;
      z := z * k;
    }

    /** `div_assign`: the held value becomes `DivScalar(old value, k)`. */
    method DivAssign(k: real)
      requires k != 0.0
      modifies this
      ensures Value() == DivScalar(old(Value()), k)
    {
      x := x / k;
      y := y / k;
      z := z / k;
    }

    /** `add_assign`: the held value becomes `Add(old value, w)`. */
    method AddAssign(w: Vector3)
      modifies this
      ensures Value() == Add(old(Value()), w)
    {
      x := x + w.x;
      y := y + w.y;
      z := z + w.z;
    }

    /** `sub_assign`: the held value becomes `Sub(old value, w)`. */
    method SubAssign(w: Vector3)
      modifies this
      ensures Value() == Sub(old(Value()), w)
    {
      x := x - w.x;
      y := y - w.y;
      z := z - w.z;
    }
  }
}
