/**
 * The three-component vector type of src/vector/mod.rs.
 *
 * The element type `T` of the source is generic over its own arithmetic;
 * here it is `real`, so every algebraic law below holds exactly. The value
 * operators (`new`, unary `-`, `dot`, `cross`, `==`, and `+ - * /` with a
 * vector or a scalar on the right) are functions on the datatype `Vector`;
 * the compound assignments (`+= -= *= /=`, both forms) mutate the fields of
 * a `MutableVector` in place.
 */
module Vectors {

  /** A vector value: three components of the same element type. */
  datatype Vector = Vector(x: real, y: real, z: real)

  /** The components in order, as a sequence of length three. */
  function Components(v: Vector): (s: seq<real>)
  {
    [v.x, v.y, v.z]
  }

  /** The vector whose three components are all `s` (what a scalar right-hand side broadcasts to). */
  function Splat(s: real): (v: Vector)
  {
    Vector(s, s, s)
  }

  /** The additive identity. */
  function Zero(): (v: Vector)
  {
    Splat(0.0)
  }

  /** True iff no component of `v` is zero, so that `v` may divide. */
  predicate NonZeroComponents(v: Vector)
  {
    v.x != 0.0 && v.y != 0.0 && v.z != 0.0
  }

  // ---------------------------------------------------------------------
  // Construction, equality, negation
  // ---------------------------------------------------------------------

  /** `Vector::new`: a vector holding the given coordinates, in order. */
  function New(x: real, y: real, z: real): (v: Vector)
    ensures Components(v) == [x, y, z]
  {
    Vector(x, y, z)
  }

  /**
   * `PartialEq::eq`: component-wise comparison with no tolerance. It
   * coincides with equality of vector values.
   */
  function Eq(a: Vector, b: Vector): (r: bool)
    ensures r <==> a == b
  {
    a.x == b.x && a.y == b.y && a.z == b.z
  }

  /** Unary `-`: the additive inverse of `a`. */
  function Neg(a: Vector): (r: Vector)
    ensures Add(a, r) == Zero()
  {
    Vector(-a.x, -a.y, -a.z)
  }

  // ---------------------------------------------------------------------
  // Dot and cross product
  // ---------------------------------------------------------------------

  /** `Vector::dot`: the sum of the component products. */
  function Dot(a: Vector, b: Vector): (r: real)
  {
    a.x * b.x + a.y * b.y + a.z * b.z
  }

  /**
   * `Vector::cross`, following the doc-comment formula (right-handed).
   * The result is orthogonal to both operands.
   */
  function Cross(a: Vector, b: Vector): (r: Vector)
    ensures Dot(a, r) == 0.0 && Dot(b, r) == 0.0
  {
    Vector(a.y * b.z - a.z * b.y,
           -(a.x * b.z - a.z * b.x),
           a.x * b.y - a.y * b.x)
  }

  // ---------------------------------------------------------------------
  // Vector-with-vector operators
  // ---------------------------------------------------------------------

  /** `Add for Vector<T>`: component-wise sum. */
  function Add(a: Vector, b: Vector): (r: Vector)
  {
    Vector(a.x + b.x, a.y + b.y, a.z + b.z)
  }

  /** `Sub for Vector<T>`: component-wise difference, which undoes `Add`. */
  function Sub(a: Vector, b: Vector): (r: Vector)
    ensures Add(r, b) == a
    ensures r == Add(a, Neg(b))
  {
    Vector(a.x - b.x, a.y - b.y, a.z - b.z)
  }

  /** `Mul for Vector<T>`: component-wise product. */
  function Mul(a: Vector, b: Vector): (r: Vector)
  {
    Vector(a.x * b.x, a.y * b.y, a.z * b.z)
  }

  /** `Div for Vector<T>`: component-wise quotient, which undoes `Mul`. */
  function Div(a: Vector, b: Vector): (r: Vector)
    requires NonZeroComponents(b)
    ensures Mul(r, b) == a
  {
    Vector(a.x / b.x, a.y / b.y, a.z / b.z)
  }

  // ---------------------------------------------------------------------
  // Vector-with-scalar operators: the scalar is broadcast to all three
  // components, so each equals the vector operator applied to Splat(s).
  // ---------------------------------------------------------------------

  /** `Add<T> for Vector<T>`. */
  function AddScalar(a: Vector, s: real): (r: Vector)
    ensures r == Add(a, Splat(s))
  {
    Vector(a.x + s, a.y + s, a.z + s)
  }

  /** `Sub<T> for Vector<T>`. */
  function SubScalar(a: Vector, s: real): (r: Vector)
    ensures r == Sub(a, Splat(s))
  {
    Vector(a.x - s, a.y - s, a.z - s)
  }

  /** `Mul<T> for Vector<T>`. */
  function MulScalar(a: Vector, s: real): (r: Vector)
    ensures r == Mul(a, Splat(s))
  {
    Vector(a.x * s, a.y * s, a.z * s)
  }

  /** `Div<T> for Vector<T>`. */
  function DivScalar(a: Vector, s: real): (r: Vector)
    requires s != 0.0
    ensures r == Div(a, Splat(s))
  {
    Vector(a.x / s, a.y / s, a.z / s)
  }

  /**
   * The value the scalar `-=` leaves behind as it is written: the scalar is
   * taken from `x` and `y` only, and `z` keeps its old value.
   */
  function SubScalarAsWritten(a: Vector, s: real): (r: Vector)
    ensures r.z == a.z
    ensures r.x == SubScalar(a, s).x && r.y == SubScalar(a, s).y
  {
    Vector(a.x - s, a.y - s, a.z)
  }

  // ---------------------------------------------------------------------
  // Compound assignment: a vector place whose fields are updated in place.
  // ---------------------------------------------------------------------

  /** A mutable `Vector<T>` binding, the receiver of the `*Assign` operators. */
  class MutableVector {
    var x: real
    var y: real
    var z: real

    /** The vector value currently held. */
    function Value(): (v: Vector)
      reads this
    {
      Vector(x, y, z)
    }

    constructor (v: Vector)
      ensures Value() == v
    {
      x, y, z := v.x, v.y, v.z;
    }

    /** `AddAssign for Vector<T>`: `self = self + rhs`. */
    method AddAssign(rhs: Vector)
      modifies this
      ensures Value() == Add(old(Value()), rhs)
    {
      x := x + rhs.x;
      y := y + rhs.y;
      z := z + rhs.z;
    }

    /** `AddAssign<T> for Vector<T>`: `self = self + s`. */
    method AddAssignScalar(s: real)
      modifies this
      ensures Value() == AddScalar(old(Value()), s)
    {
      x := x + s;
      y := y + s;
      z := z + s;
    }

    /** `SubAssign for Vector<T>`: `self = self - rhs`. */
    method SubAssign(rhs: Vector)
      modifies this
      ensures Value() == Sub(old(Value()), rhs)
    {
      x := x - rhs.x;
      y := y - rhs.y;
      z := z - rhs.z;
    }

    /**
     * `SubAssign<T> for Vector<T>` as written: only `x` and `y` are
     * decremented; `z` is left unchanged.
     */
    method SubAssignScalar(s: real)
      modifies this
      ensures Value() == SubScalarAsWritten(old(Value()), s)
      ensures z == old(z)
    {
      x := x - s;
      y := y - s;
    }

    /** The scalar `-=` as evidently intended: `self = self - s` on all three components. */
    method SubAssignScalarCorrected(s: real)
      modifies this
      ensures Value() == SubScalar(old(Value()), s)
    {
      x := x - s;
      y := y - s;
      z := z - s;
    }

    /** `MulAssign for Vector<T>`: `self = self * rhs`. */
    method MulAssign(rhs: Vector)
      modifies this
      ensures Value() == Mul(old(Value()), rhs)
    {
      x := x * rhs.x;
      y := y * rhs.y;
      z := z * rhs.z;
    }

    /** `MulAssign<T> for Vector<T>`: `self = self * s`. */
    method MulAssignScalar(s: real)
      modifies this
      ensures Value() == MulScalar(old(Value()), s)
    {
      x := x * s;
      y := y * s;
      z := z * s;
    }

    /** `DivAssign for Vector<T>`: `self = self / rhs`. */
    method DivAssign(rhs: Vector)
      requires NonZeroComponents(rhs)
      modifies this
      ensures Value() == Div(old(Value()), rhs)
    {
      x := x / rhs.x;
      y := y / rhs.y;
      z := z / rhs.z;
    }

    /** `DivAssign<T> for Vector<T>`: `self = self / s`. */
    method DivAssignScalar(s: real)
      requires s != 0.0
      modifies this
      ensures Value() == DivScalar(old(Value()), s)
    {
      x := x / s;
      y := y / s;
      z := z / s;
    }
  }

  // ---------------------------------------------------------------------
  // Laws
  // ---------------------------------------------------------------------

  /** Negating twice gives back the vector. */
  lemma NegInvolutive(a: Vector)
    ensures Neg(Neg(a)) == a
    ensures Neg(a) == Sub(Zero(), a)
  {
  }

  /** The dot product is symmetric. */
  lemma DotSymmetric(a: Vector, b: Vector)
    ensures Dot(a, b) == Dot(b, a)
  {
  }

  /**
   * The component-wise product is commutative, and dividing a product by a
   * divisor with no zero component gives back the other factor.
   */
  lemma MulCommutesAndDivUndoes(a: Vector, b: Vector)
    ensures Mul(a, b) == Mul(b, a)
    ensures NonZeroComponents(b) ==> Div(Mul(a, b), b) == a
  {
  }

  /** The cross product is anti-commutative, and a vector crossed with itself is zero. */
  lemma CrossAntiCommutative(a: Vector, b: Vector)
    ensures Cross(a, b) == Neg(Cross(b, a))
    ensures Cross(a, a) == Zero()
  {
  }

  /** Equality is reflexive, symmetric and transitive. */
  lemma EqIsEquivalence(a: Vector, b: Vector, c: Vector)
    ensures Eq(a, a)
    ensures Eq(a, b) <==> Eq(b, a)
    ensures Eq(a, b) && Eq(b, c) ==> Eq(a, c)
  {
  }

  /** Two constructed vectors are equal iff their coordinates are pairwise equal. */
  lemma NewEqIff(x1: real, y1: real, z1: real, x2: real, y2: real, z2: real)
    ensures Eq(New(x1, y1, z1), New(x2, y2, z2)) <==> x1 == x2 && y1 == y2 && z1 == z2
  {
  }

  /**
   * The scalar `-=` as written agrees with `v - s` exactly when `s` is zero;
   * otherwise the two differ in `z`, and only there.
   */
  lemma SubAssignScalarDiverges(v: Vector, s: real)
    ensures SubScalarAsWritten(v, s) == SubScalar(v, s) <==> s == 0.0
    ensures s != 0.0 ==> SubScalarAsWritten(v, s).z != SubScalar(v, s).z
  {
  }

  /** A concrete input on which the scalar `-=` and `v - s` disagree. */
  lemma SubAssignScalarCounterexample()
    ensures SubScalarAsWritten(Vector(-1.0, 2.0, -3.0), 1.0) == Vector(-2.0, 1.0, -3.0)
    ensures SubScalar(Vector(-1.0, 2.0, -3.0), 1.0) == Vector(-2.0, 1.0, -4.0)
  {
  }

  /** The first test vector of src/vector/tests.rs. */
  function V1(): (v: Vector)
  {
    New(-1.0, 2.0, -3.0)
  }

  /** The second test vector of src/vector/tests.rs. */
  function V2(): (v: Vector)
  {
    New(6.0, -5.0, 4.0)
  }

  /** The `add` test: `v1 + v2`. */
  lemma FixtureAdd()
    ensures Eq(Add(V1(), V2()), New(5.0, -3.0, 1.0))
  {
  }

  /** The `sub` test: `v1 - v2`. */
  lemma FixtureSub()
    ensures Eq(Sub(V1(), V2()), New(-7.0, 7.0, -7.0))
  {
  }

  /** The `mul` test: `v1 * v2`. */
  lemma FixtureMul()
    ensures Eq(Mul(V1(), V2()), New(-6.0, -10.0, -12.0))
  {
  }

  /** The `div` test: `v1 / v2`. */
  lemma FixtureDiv()
    ensures Eq(Div(V1(), V2()), New(-1.0 / 6.0, -2.0 / 5.0, -3.0 / 4.0))
  {
  }

  /** The `neg`, `dot` and `cross` tests. */
  lemma FixtureNegDotCross()
    ensures Eq(Neg(V1()), New(1.0, -2.0, 3.0))
    ensures Dot(V1(), V2()) == -28.0
    ensures Eq(Cross(V1(), V2()), New(-7.0, -14.0, -7.0))
  {
  }

  /**
   * The fixtures of src/vector/tests.rs for the vector-with-vector compound
   * assignments, each applied to a fresh binding of `v1`.
   */
  method AssignFixtures() returns (sum: Vector, diff: Vector, prod: Vector, quot: Vector)
    ensures sum == New(5.0, -3.0, 1.0)
    ensures diff == New(-7.0, 7.0, -7.0)
    ensures prod == New(-6.0, -10.0, -12.0)
    ensures quot == New(-1.0 / 6.0, -2.0 / 5.0, -3.0 / 4.0)
  {
    var v1, v2 := V1(), V2();
    var m := new MutableVector(v1);
    m.AddAssign(v2);
    sum := m.Value();
    m := new MutableVector(v1);
    m.SubAssign(v2);
    diff := m.Value();
    m := new MutableVector(v1);
    m.MulAssign(v2);
    prod := m.Value();
    m := new MutableVector(v1);
    m.DivAssign(v2);
    quot := m.Value();
  }
}
