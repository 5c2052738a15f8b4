/** Quaternion helpers of the engine: the Hamilton product and the axis-angle constructor.
    A quaternion is the 4-array [x, y, z, w] with the scalar part last. */
module Quat {

  datatype Quat4 = Quat4(x: real, y: real, z: real, w: real)

  /** The identity rotation [0, 0, 0, 1]. */
  const Identity := Quat4(0.0, 0.0, 0.0, 1.0)

  /** The squared norm x^2 + y^2 + z^2 + w^2. */
  function NormSq(q: Quat4): (n: real) {
    q.x * q.x + q.y * q.y + q.z * q.z + q.w * q.w
  }

  /** The Hamilton product a * b, component by component as the engine computes it. */
  function Multiply(a: Quat4, b: Quat4): (p: Quat4) {
    Quat4(
      a.w * b.x + a.x * b.w + a.y * b.z - a.z * b.y,
      a.w * b.y - a.x * b.z + a.y * b.w + a.z * b.x,
      a.w * b.z + a.x * b.y - a.y * b.x + a.z * b.w,
      a.w * b.w - a.x * b.x - a.y * b.y - a.z * b.z)
  }

  /** [0,0,0,1] is a two-sided unit of the product. */
  lemma MultiplyIdentity(q: Quat4)
    ensures Multiply(Identity, q) == q
    ensures Multiply(q, Identity) == q
  {
  }

  /** A rotation about the Y axis only: no x and no z component. */
  predicate IsYRotation(q: Quat4) {
    q.x == 0.0 && q.z == 0.0
  }

  /** The product of two Y-axis rotations is again a Y-axis rotation,
      and its y and w parts are those of the complex product (w + y i). */
  lemma YRotationsClosed(a: Quat4, b: Quat4)
    requires IsYRotation(a) && IsYRotation(b)
    ensures IsYRotation(Multiply(a, b))
    ensures Multiply(a, b).y == a.w * b.y + a.y * b.w
    ensures Multiply(a, b).w == a.w * b.w - a.y * b.y
  {
  }

  /** Euler's four-square identity, as this product formula realises it:
      the norm of a product is the product of the norms. */
  lemma NormMultiplicative(a: Quat4, b: Quat4)
    ensures NormSq(Multiply(a, b)) == NormSq(a) * NormSq(b)
  {
    // Each squared component expanded into monomials; the cross terms cancel across the four.
    SquareX(a, b);
    SquareY(a, b);
    SquareZ(a, b);
    SquareW(a, b);
    NormProduct(a, b);
  }

  lemma SquareX(a: Quat4, b: Quat4)
    ensures var m := Multiply(a, b);
            m.x * m.x == a.w * a.w * b.x * b.x + a.x * a.x * b.w * b.w + a.y * a.y * b.z * b.z + a.z * a.z * b.y * b.y + 2.0 * a.x * a.w * b.x * b.w + 2.0 * a.y * a.w * b.x * b.z - 2.0 * a.z * a.w * b.x * b.y + 2.0 * a.x * a.y * b.z * b.w - 2.0 * a.x * a.z * b.y * b.w - 2.0 * a.y * a.z * b.y * b.z
  {
  }

  lemma SquareY(a: Quat4, b: Quat4)
    ensures var m := Multiply(a, b);
            m.y * m.y == a.w * a.w * b.y * b.y + a.x * a.x * b.z * b.z + a.y * a.y * b.w * b.w + a.z * a.z * b.x * b.x - 2.0 * a.x * a.w * b.y * b.z + 2.0 * a.y * a.w * b.y * b.w + 2.0 * a.z * a.w * b.x * b.y - 2.0 * a.x * a.y * b.z * b.w - 2.0 * a.x * a.z * b.x * b.z + 2.0 * a.y * a.z * b.x * b.w
  {
  }

  lemma SquareZ(a: Quat4, b: Quat4)
    ensures var m := Multiply(a, b);
            m.z * m.z == a.w * a.w * b.z * b.z + a.x * a.x * b.y * b.y + a.y * a.y * b.x * b.x + a.z * a.z * b.w * b.w + 2.0 * a.x * a.w * b.y * b.z - 2.0 * a.y * a.w * b.x * b.z + 2.0 * a.z * a.w * b.z * b.w - 2.0 * a.x * a.y * b.x * b.y + 2.0 * a.x * a.z * b.y * b.w - 2.0 * a.y * a.z * b.x * b.w
  {
  }

  lemma SquareW(a: Quat4, b: Quat4)
    ensures var m := Multiply(a, b);
            m.w * m.w == a.w * a.w * b.w * b.w + a.x * a.x * b.x * b.x + a.y * a.y * b.y * b.y + a.z * a.z * b.z * b.z - 2.0 * a.x * a.w * b.x * b.w - 2.0 * a.y * a.w * b.y * b.w - 2.0 * a.z * a.w * b.z * b.w + 2.0 * a.x * a.y * b.x * b.y + 2.0 * a.x * a.z * b.x * b.z + 2.0 * a.y * a.z * b.y * b.z
  {
  }

  lemma NormProduct(a: Quat4, b: Quat4)
    ensures NormSq(a) * NormSq(b) == a.x * a.x * b.x * b.x + a.x * a.x * b.y * b.y + a.x * a.x * b.z * b.z + a.x * a.x * b.w * b.w + a.y * a.y * b.x * b.x + a.y * a.y * b.y * b.y + a.y * a.y * b.z * b.z + a.y * a.y * b.w * b.w + a.z * a.z * b.x * b.x + a.z * a.z * b.y * b.y + a.z * a.z * b.z * b.z + a.z * a.z * b.w * b.w + a.w * a.w * b.x * b.x + a.w * a.w * b.y * b.y + a.w * a.w * b.z * b.z + a.w * a.w * b.w * b.w
  {
  }

  /** A unit quaternion stays a unit quaternion under multiplication by another. */
  lemma UnitClosed(a: Quat4, b: Quat4)
    requires NormSq(a) == 1.0 && NormSq(b) == 1.0
    ensures NormSq(Multiply(a, b)) == 1.0
  {
    NormMultiplicative(a, b);
  }

  /** quatFromAxisAngle: axis * sin(angle/2) in the vector part and cos(angle/2) in w.
      `sin` and `cos` are parameters: the model does not interpret them. */
  function FromAxisAngle(ax: real, ay: real, az: real, angle: real,
                         sin: real -> real, cos: real -> real): (q: Quat4)
  {
    var s := sin(angle * 0.5);
    Quat4(ax * s, ay * s, az * s, cos(angle * 0.5))
  }

  /** The vector part of FromAxisAngle is parallel to the axis (their cross product
      vanishes), and w is cos(angle/2); for a unit axis the result is a unit quaternion
      whenever sin^2 + cos^2 = 1 at the half angle. */
  lemma FromAxisAngleShape(ax: real, ay: real, az: real, angle: real,
                           sin: real -> real, cos: real -> real)
    ensures var q := FromAxisAngle(ax, ay, az, angle, sin, cos);
            && q.y * az - q.z * ay == 0.0 && q.z * ax - q.x * az == 0.0 && q.x * ay - q.y * ax == 0.0
            && q.w == cos(angle * 0.5)
    ensures ax * ax + ay * ay + az * az == 1.0
            && sin(angle * 0.5) * sin(angle * 0.5) + cos(angle * 0.5) * cos(angle * 0.5) == 1.0
            ==> NormSq(FromAxisAngle(ax, ay, az, angle, sin, cos)) == 1.0
  {
    var s := sin(angle * 0.5);
    var c := cos(angle * 0.5);
    assert NormSq(FromAxisAngle(ax, ay, az, angle, sin, cos)) == (ax * ax + ay * ay + az * az) * (s * s) + c * c;
  }

  /** About the axis [0, 1, 0] the result is a Y-axis rotation. */
  lemma FromYAxisIsYRotation(angle: real, sin: real -> real, cos: real -> real)
    ensures IsYRotation(FromAxisAngle(0.0, 1.0, 0.0, angle, sin, cos))
    ensures FromAxisAngle(0.0, 1.0, 0.0, angle, sin, cos).y == sin(angle * 0.5)
  {
  }

  /** Composing two Y-axis rotations adds their angles, provided sin and cos obey
      the angle-addition formulas at the two half angles. This is what the coin
      billboard (yaw) times spin (t * 2) product computes. */
  lemma YRotationsAddAngles(a: real, b: real, sin: real -> real, cos: real -> real)
    requires sin(a * 0.5 + b * 0.5) == sin(a * 0.5) * cos(b * 0.5) + cos(a * 0.5) * sin(b * 0.5)
    requires cos(a * 0.5 + b * 0.5) == cos(a * 0.5) * cos(b * 0.5) - sin(a * 0.5) * sin(b * 0.5)
    ensures Multiply(FromAxisAngle(0.0, 1.0, 0.0, a, sin, cos), FromAxisAngle(0.0, 1.0, 0.0, b, sin, cos))
            == FromAxisAngle(0.0, 1.0, 0.0, a + b, sin, cos)
  {
    assert (a + b) * 0.5 == a * 0.5 + b * 0.5;
  }
}
