/**
 * The 3 × 3 matrix type M3 of package coord (coord.go:197-198, 230-237): nine
 * reals in row-major order, entries 0-2 being row 0, 3-5 row 1 and 6-8 row 2.
 * A Go `*M3` is a pointer to such an array; here it is an `array<real>` of
 * length 9, so that a transpose into the same matrix is the same array.
 */
module Matrix {
  import opened Cartesian

  /** Row i, column j of a row-major 3 × 3 matrix. */
  function Entry(m: seq<real>, i: int, j: int): real
    requires |m| == 9 && 0 <= i < 3 && 0 <= j < 3
  {
    m[3 * i + j]
  }

  /**
   * The transpose of a matrix: entry (i, j) of the result is entry (j, i) of
   * m, so the diagonal entries 0, 4 and 8 stay where they are.
   */
  function Transposed(m: seq<real>): (t: seq<real>)
    requires |m| == 9
    ensures |t| == 9
    ensures forall i, j :: 0 <= i < 3 && 0 <= j < 3 ==> Entry(t, i, j) == Entry(m, j, i)
    ensures t[0] == m[0] && t[4] == m[4] && t[8] == m[8]
  {
    [m[0], m[3], m[6],
     m[1], m[4], m[7],
     m[2], m[5], m[8]]
  }

  /**
   * z.Transpose(a): sets z = transpose(a) and returns z, where z may be a.
   * Each of the three grouped assignments reads only entries that no earlier
   * group has written, so the transpose is also right in place.
   */
  method Transpose(z: array<real>, a: array<real>) returns (r: array<real>)
    requires z.Length == 9 && a.Length == 9
    modifies z
    ensures r == z
    ensures z[..] == Transposed(old(a[..]))
  {
    ghost var m := a[..];
    z[0], z[1], z[3] := a[0], a[3], a[1];
    assert z[0] == m[0] && z[1] == m[3] && z[3] == m[1];
    z[2], z[4], z[6] := a[6], a[4], a[2];
    assert z[2] == m[6] && z[4] == m[4] && z[6] == m[2];
    z[5], z[7], z[8] := a[7], a[5], a[8];
    assert z[..] == [m[0], m[3], m[6], m[1], m[4], m[7], m[2], m[5], m[8]];
    r := z;
  }

  /** Transposing twice gives back the matrix. */
  lemma TransposedInvolution(m: seq<real>)
    requires |m| == 9
    ensures Transposed(Transposed(m)) == m
  {
  }

  /** Transposing a matrix into itself stores what transposing it into a separate matrix stores. */
  method TransposeAliasing(m: seq<real>) returns (inPlace: seq<real>, separate: seq<real>)
    requires |m| == 9
    ensures inPlace == separate
    ensures separate == Transposed(m)
  {
    var a := new real[9](i requires 0 <= i < 9 => m[i]);
    var z := new real[9];
    var ret := Transpose(z, a);
    separate := z[..];
    ret := Transpose(a, a);
    inPlace := a[..];
  }

  /** The package's example: transposing rows [1 2 3] [4 5 6] [7 8 9] in place. */
  method TransposeExample() returns (rows: seq<real>)
    ensures rows == [1.0, 4.0, 7.0, 2.0, 5.0, 8.0, 3.0, 6.0, 9.0]
  {
    var m := new real[9](i => (i + 1) as real);
    assert m[..] == [1.0, 2.0, 3.0, 4.0, 5.0, 6.0, 7.0, 8.0, 9.0];
    var ret := Transpose(m, m);
    rows := m[..];
  }

  /** rm × a dotted with b equals a dotted with transpose(rm) × b. */
  lemma ProductTransposedAdjoint(rm: seq<real>, a: Vec, b: Vec)
    requires |rm| == 9
    ensures Product(rm, a).Dot(b) == a.Dot(Product(Transposed(rm), b))
  {
  }

  /**
   * The X-axis rotation matrix of the package's examples: rows [1 0 0],
   * [0 cos -sin] and [0 sin cos].
   */
  function XRotation(sin: real, cos: real): seq<real>
  {
    [1.0, 0.0, 0.0,
     0.0, cos, -sin,
     0.0, sin, cos]
  }

  /**
   * RotateX is the product with the transpose of XRotation, so Mult3 with
   * XRotation itself rotates the other way: RotateX with the sine negated.
   */
  lemma RotateXIsProduct(a: Vec, sin: real, cos: real)
    ensures a.RotateX(sin, cos) == Product(Transposed(XRotation(sin, cos)), a)
    ensures Product(XRotation(sin, cos), a) == a.RotateX(-sin, cos)
  {
  }

  /** XRotation keeps the X axis and sends the Y and Z axes to (0, cos, sin) and (0, -sin, cos). */
  lemma XRotationOnAxes(sin: real, cos: real)
    ensures Product(XRotation(sin, cos), Vec(1.0, 0.0, 0.0)) == Vec(1.0, 0.0, 0.0)
    ensures Product(XRotation(sin, cos), Vec(0.0, 1.0, 0.0)) == Vec(0.0, cos, sin)
    ensures Product(XRotation(sin, cos), Vec(0.0, 0.0, 1.0)) == Vec(0.0, -sin, cos)
  {
  }

  /** The package's examples: RotateX and Mult3 by XRotation send (0, 1, 0) to (0, cos, -sin) and (0, cos, sin). */
  lemma RotationExamples(sin: real, cos: real)
    ensures Vec(0.0, 1.0, 0.0).RotateX(sin, cos) == Vec(0.0, cos, -sin)
    ensures Product(XRotation(sin, cos), Vec(0.0, 1.0, 0.0)) == Vec(0.0, cos, sin)
  {
  }
}
