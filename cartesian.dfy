/**
 * Three-dimensional cartesian coordinates: the `Cart` type of package coord and
 * its method set (coord.go:17-83, 206-213).
 *
 * A Go `Cart` is a struct of three float64 fields; the methods take `*Cart`
 * pointers, write their result into the receiver and return it. The value of a
 * Cart is the datatype `Vec`, whose member functions are the algebra; a Cart
 * variable (the thing a `*Cart` points to) is the class `Cart`, whose methods
 * overwrite its fields. Reals stand in for float64.
 */
module Cartesian {

  /** The value held by a Cart: its X, Y and Z components. */
  datatype Vec = Vec(x: real, y: real, z: real) {

    /** -a, the value Cart.Neg stores; it is the additive inverse of a. */
    function Neg(): (r: Vec)
      ensures Add(r) == Zero
    {
      Vec(-x, -y, -z)
    }

    /** a + b, component-wise, the value Cart.Add stores; subtracting b undoes it. */
    function Add(b: Vec): (r: Vec)
      ensures r.Sub(b) == this
    {
      Vec(x + b.x, y + b.y, z + b.z)
    }

    /** a - b, component-wise, the value Cart.Sub stores. */
    function Sub(b: Vec): Vec
    {
      Vec(x - b.x, y - b.y, z - b.z)
    }

    /** a * k for a scalar k, the value Cart.MulScalar stores; it scales the squared length by k². */
    function MulScalar(k: real): (r: Vec)
      ensures r.Square() == k * k * Square()
    {
      Vec(x * k, y * k, z * k)
    }

    /**
     * a rotated about the X axis, given the sine and cosine of the angle, the
     * value Cart.RotateX stores. X is kept, and when sin² + cos² = 1 the
     * squared length is kept.
     */
    function RotateX(sin: real, cos: real): (r: Vec)
      ensures r.x == x
      ensures sin * sin + cos * cos == 1.0 ==> r.Square() == Square()
    {
      Vec(x, z * sin + y * cos, z * cos - y * sin)
    }

    /** The dot product a · b (Cart.Dot). */
    function Dot(b: Vec): real
    {
      x * b.x + y * b.y + z * b.z
    }

    /** The squared length (Cart.Square): a · a, never negative. */
    function Square(): (r: real)
      ensures r == Dot(this)
      ensures r >= 0.0
    {
      x * x + y * y + z * z
    }

    /** The cross product a × b, the value Cart.Cross stores; it is orthogonal to a and to b. */
    function Cross(b: Vec): (r: Vec)
      ensures Dot(r) == 0.0 && b.Dot(r) == 0.0
    {
      Vec(y * b.z - z * b.y, z * b.x - x * b.z, x * b.y - y * b.x)
    }
  }

  const Zero := Vec(0.0, 0.0, 0.0)

  /**
   * The matrix-vector product rm × a for a 3 × 3 matrix stored row-major in
   * nine reals, the value Cart.Mult3 stores.
   */
  function Product(rm: seq<real>, a: Vec): Vec
    requires |rm| == 9
  {
    Vec(rm[0] * a.x + rm[1] * a.y + rm[2] * a.z,
        rm[3] * a.x + rm[4] * a.y + rm[5] * a.z,
        rm[6] * a.x + rm[7] * a.y + rm[8] * a.z)
  }

  /** Component i (0 for X, 1 for Y, 2 for Z) of a vector. */
  function Component(a: Vec, i: int): real
    requires 0 <= i < 3
  {
    if i == 0 then a.x else if i == 1 then a.y else a.z
  }

  /** A Cart variable, the target of a `*Cart`. */
  class Cart {
    var X: real
    var Y: real
    var Z: real

    constructor (x: real, y: real, z: real)
      ensures Value() == Vec(x, y, z)
    {
      X, Y, Z := x, y, z;
    }

    /** The value the variable currently holds. */
    function Value(): Vec
      reads this
    {
      Vec(X, Y, Z)
    }

    /** z.Neg(a): sets z = -a and returns z; a may be z itself. */
    method Neg(a: Cart) returns (r: Cart)
      modifies this
      ensures r == this
      ensures Value() == old(a.Value()).Neg()
    {
      X := -a.X;
      Y := -a.Y;
      Z := -a.Z;
      r := this;
    }

    /** z.Add(a1, a2): sets z = a1 + a2 and returns z; either argument may be z. */
    method Add(a1: Cart, a2: Cart) returns (r: Cart)
      modifies this
      ensures r == this
      ensures Value() == old(a1.Value()).Add(old(a2.Value()))
    {
      X := a1.X + a2.X;
      Y := a1.Y + a2.Y;
      Z := a1.Z + a2.Z;
      r := this;
    }

    /** z.Sub(a1, a2): sets z = a1 - a2 and returns z; either argument may be z. */
    method Sub(a1: Cart, a2: Cart) returns (r: Cart)
      modifies this
      ensures r == this
      ensures Value() == old(a1.Value()).Sub(old(a2.Value()))
    {
      X := a1.X - a2.X;
      Y := a1.Y - a2.Y;
      Z := a1.Z - a2.Z;
      r := this;
    }

    /** z.MulScalar(a, b): sets z = a * b and returns z; a may be z. */
    method MulScalar(a: Cart, b: real) returns (r: Cart)
      modifies this
      ensures r == this
      ensures Value() == old(a.Value()).MulScalar(b)
    {
      X := a.X * b;
      Y := a.Y * b;
      Z := a.Z * b;
      r := this;
    }

    /**
     * z.RotateX(a, sin, cos): sets z = a rotated about the X axis and returns z.
     * All three right-hand sides are evaluated before any field is written,
     * which is what keeps z == a correct.
     */
    method RotateX(a: Cart, sin: real, cos: real) returns (r: Cart)
      modifies this
      ensures r == this
      ensures Value() == old(a.Value()).RotateX(sin, cos)
    {
      X, Y, Z := a.X, a.Z * sin + a.Y * cos, a.Z * cos - a.Y * sin;
      r := this;
    }

    /** z.Cross(a, b): sets z = a × b and returns z; a or b may be z. */
    method Cross(a: Cart, b: Cart) returns (r: Cart)
      modifies this
      ensures r == this
      ensures Value() == old(a.Value()).Cross(old(b.Value()))
    {
      X, Y, Z :=
        a.Y * b.Z - a.Z * b.Y,
        a.Z * b.X - a.X * b.Z,
        a.X * b.Y - a.Y * b.X;
      r := this;
    }

    /** z.Mult3(rm, a): sets z = rm × a and returns z; a may be z. */
    method Mult3(rm: array<real>, a: Cart) returns (r: Cart)
      requires rm.Length == 9
      modifies this
      ensures r == this
      ensures Value() == Product(rm[..], old(a.Value()))
    {
      X, Y, Z :=
        rm[0] * a.X + rm[1] * a.Y + rm[2] * a.Z,
        rm[3] * a.X + rm[4] * a.Y + rm[5] * a.Z,
        rm[6] * a.X + rm[7] * a.Y + rm[8] * a.Z;
      r := this;
    }
  }

  // ---------------------------------------------------------------------------
  // Receivers that alias an argument. Each method runs the operation once into
  // a separate receiver and once with the receiver being the argument, and
  // shows that both store the same value.

  /** a.Neg(a) stores -a. */
  method NegAliasing(u: Vec) returns (inPlace: Vec)
    ensures inPlace == u.Neg()
  {
    var a := new Cart(u.x, u.y, u.z);
    var ret := a.Neg(a);
    inPlace := a.Value();
  }

  /** a.Add(a, b) and a.Add(a, a) store a + b and a + a. */
  method AddAliasing(u: Vec, v: Vec) returns (intoFirst: Vec, doubled: Vec)
    ensures intoFirst == u.Add(v) && doubled == u.Add(u)
  {
    var a := new Cart(u.x, u.y, u.z);
    var b := new Cart(v.x, v.y, v.z);
    var ret := a.Add(a, b);
    intoFirst := a.Value();
    a := new Cart(u.x, u.y, u.z);
    ret := a.Add(a, a);
    doubled := a.Value();
  }

  /** a.Sub(a, b) and b.Sub(a, b) store a - b. */
  method SubAliasing(u: Vec, v: Vec) returns (intoFirst: Vec, intoSecond: Vec)
    ensures intoFirst == u.Sub(v) && intoSecond == u.Sub(v)
  {
    var a := new Cart(u.x, u.y, u.z);
    var b := new Cart(v.x, v.y, v.z);
    var ret := a.Sub(a, b);
    intoFirst := a.Value();
    a := new Cart(u.x, u.y, u.z);
    ret := b.Sub(a, b);
    intoSecond := b.Value();
  }

  /** a.MulScalar(a, k) stores a * k. */
  method MulScalarAliasing(u: Vec, k: real) returns (inPlace: Vec)
    ensures inPlace == u.MulScalar(k)
  {
    var a := new Cart(u.x, u.y, u.z);
    var ret := a.MulScalar(a, k);
    inPlace := a.Value();
  }

  /** a.RotateX(a, sin, cos) stores what a separate receiver gets. */
  method RotateXAliasing(v: Vec, sin: real, cos: real) returns (inPlace: Vec, separate: Vec)
    ensures inPlace == separate
    ensures separate == v.RotateX(sin, cos)
  {
    var a := new Cart(v.x, v.y, v.z);
    var z := new Cart(0.0, 0.0, 0.0);
    var ret := z.RotateX(a, sin, cos);
    separate := z.Value();
    ret := a.RotateX(a, sin, cos);
    inPlace := a.Value();
  }

  /** a.Cross(a, b) and b.Cross(a, b) store what a separate receiver gets. */
  method CrossAliasing(u: Vec, v: Vec) returns (intoFirst: Vec, intoSecond: Vec, separate: Vec)
    ensures intoFirst == separate && intoSecond == separate
    ensures separate == u.Cross(v)
  {
    var a := new Cart(u.x, u.y, u.z);
    var b := new Cart(v.x, v.y, v.z);
    var z := new Cart(0.0, 0.0, 0.0);
    var ret := z.Cross(a, b);
    separate := z.Value();
    ret := a.Cross(a, b);
    intoFirst := a.Value();
    a := new Cart(u.x, u.y, u.z);
    ret := b.Cross(a, b);
    intoSecond := b.Value();
  }

  /** a.Mult3(rm, a) stores what a separate receiver gets. */
  method Mult3Aliasing(m: seq<real>, v: Vec) returns (inPlace: Vec, separate: Vec)
    requires |m| == 9
    ensures inPlace == separate
    ensures separate == Product(m, v)
  {
    var rm := new real[9](i requires 0 <= i < 9 => m[i]);
    assert rm[..] == m;
    var a := new Cart(v.x, v.y, v.z);
    var z := new Cart(0.0, 0.0, 0.0);
    var ret := z.Mult3(rm, a);
    separate := z.Value();
    ret := a.Mult3(rm, a);
    inPlace := a.Value();
  }

  // ---------------------------------------------------------------------------
  // Algebraic laws.

  lemma AddCommutes(a: Vec, b: Vec)
    ensures a.Add(b) == b.Add(a)
  {
  }

  lemma SubIsAddNeg(a: Vec, b: Vec)
    ensures a.Sub(b) == a.Add(b.Neg())
  {
  }

  lemma SubAddCancel(a: Vec, b: Vec)
    ensures a.Add(b).Sub(b) == a && a.Sub(b).Add(b) == a
  {
  }

  lemma DotSymmetric(a: Vec, b: Vec)
    ensures a.Dot(b) == b.Dot(a)
  {
  }

  /** The cross product is anticommutative, so a × a is zero. */
  lemma CrossAnticommutes(a: Vec, b: Vec)
    ensures a.Cross(b) == b.Cross(a).Neg()
    ensures a.Cross(a) == Zero
  {
  }

  /**
   * The (Y, Z) plane part of the round trip: rotating (y, z) by (s, c) and
   * then by (-s, c) multiplies both by s² + c².
   */
  lemma PlaneRoundTrip(y: real, z: real, s: real, c: real)
    requires s * s + c * c == 1.0
    ensures (z * c - y * s) * -s + (z * s + y * c) * c == y
    ensures (z * c - y * s) * c - (z * s + y * c) * -s == z
  {
    assert (z * c - y * s) * -s + (z * s + y * c) * c == y * (s * s + c * c);
    assert (z * c - y * s) * c - (z * s + y * c) * -s == z * (s * s + c * c);
  }

  /** Rotating by -θ (sine negated) undoes a rotation by θ when sin² + cos² = 1, and the other way round. */
  lemma RotateXRoundTrip(a: Vec, sin: real, cos: real)
    requires sin * sin + cos * cos == 1.0
    ensures a.RotateX(sin, cos).RotateX(-sin, cos) == a
    ensures a.RotateX(-sin, cos).RotateX(sin, cos) == a
  {
    PlaneRoundTrip(a.y, a.z, sin, cos);
    PlaneRoundTrip(a.y, a.z, -sin, cos);
  }

  /** Component i of rm × a is row i of rm dotted with a. */
  lemma ProductComponent(rm: seq<real>, a: Vec, i: int)
    requires |rm| == 9 && 0 <= i < 3
    ensures Component(Product(rm, a), i) == rm[3 * i] * a.x + rm[3 * i + 1] * a.y + rm[3 * i + 2] * a.z
  {
  }

  // The values the package's examples print.

  lemma AddExample()
    ensures Vec(1.0, 2.0, 3.0).Add(Vec(7.0, 2.0, 0.0)) == Vec(8.0, 4.0, 3.0)
  {
  }

  lemma SubExample()
    ensures Vec(8.0, 4.0, 3.0).Sub(Vec(1.0, 2.0, 3.0)) == Vec(7.0, 2.0, 0.0)
  {
  }

  lemma MulScalarExample()
    ensures Vec(4.0, 1.0, 0.0).MulScalar(3.0) == Vec(12.0, 3.0, 0.0)
  {
  }

  lemma DotExample()
    ensures Vec(1.0, 2.0, 3.0).Dot(Vec(7.0, 2.0, 0.0)) == 11.0
  {
  }

  lemma SquareExample()
    ensures Vec(1.0, 2.0, 3.0).Square() == 14.0
  {
  }

  lemma CrossExample()
    ensures Vec(1.0, 0.0, 0.0).Cross(Vec(0.0, 1.0, 0.0)) == Vec(0.0, 0.0, 1.0)
  {
  }
}
