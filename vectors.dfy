/**
 * Three-component real vectors: the `V` helpers of the close-approach
 * matcher (arrays of three numbers) and the `THREE.Vector3` values of the
 * integrator. Floating-point rounding is not modelled: components are reals.
 */
module Vectors {

  datatype Vec3 = Vec3(x: real, y: real, z: real)

  const Zero := Vec3(0.0, 0.0, 0.0)

  /** `V.add` and `Vector3.add`. */
  function Add(a: Vec3, b: Vec3): Vec3 {
    Vec3(a.x + b.x, a.y + b.y, a.z + b.z)
  }

  /** `V.sub`. */
  function Sub(a: Vec3, b: Vec3): Vec3 {
    Vec3(a.x - b.x, a.y - b.y, a.z - b.z)
  }

  /** `V.mul` and `Vector3.multiplyScalar`. */
  function Scale(a: Vec3, s: real): Vec3 {
    Vec3(a.x * s, a.y * s, a.z * s)
  }

  /** `V.dot`. */
  function Dot(a: Vec3, b: Vec3): real {
    a.x * b.x + a.y * b.y + a.z * b.z
  }

  /** `V.cross`. */
  function Cross(a: Vec3, b: Vec3): Vec3 {
    Vec3(a.y * b.z - a.z * b.y,
         a.z * b.x - a.x * b.z,
         a.x * b.y - a.y * b.x)
  }

  /** `V.len`, with `Math.sqrt` supplied by the caller. */
  function Len(sqrt: real -> real, a: Vec3): real {
    sqrt(Dot(a, a))
  }

  /**
   * `V.norm`: divides by the length, or by 1 when the length is 0
   * (the `|| 1` guard).
   */
  function Norm(sqrt: real -> real, a: Vec3): (n: Vec3)
    ensures Len(sqrt, a) != 0.0 ==> Scale(n, Len(sqrt, a)) == a
    ensures Len(sqrt, a) == 0.0 ==> n == a
  {
    var l := Len(sqrt, a);
    var d := if l == 0.0 then 1.0 else l;
    Vec3(a.x / d, a.y / d, a.z / d)
  }

  /** Subtraction undoes addition. */
  lemma SubAddCancel(a: Vec3, b: Vec3)
    ensures Sub(Add(a, b), b) == a && Add(Sub(a, b), b) == a
  {
  }

  /** The cross product is orthogonal to both of its arguments. */
  lemma CrossOrthogonal(a: Vec3, b: Vec3)
    ensures Dot(Cross(a, b), a) == 0.0 && Dot(Cross(a, b), b) == 0.0
  {
    assert Dot(Cross(a, b), a)
      == (a.y * b.z) * a.x - (a.z * b.y) * a.x
       + (a.z * b.x) * a.y - (a.x * b.z) * a.y
       + (a.x * b.y) * a.z - (a.y * b.x) * a.z;
    assert Dot(Cross(a, b), b)
      == (a.y * b.z) * b.x - (a.z * b.y) * b.x
       + (a.z * b.x) * b.y - (a.x * b.z) * b.y
       + (a.x * b.y) * b.z - (a.y * b.x) * b.z;
  }

  /** Scaling twice scales by the product. */
  lemma ScaleScale(a: Vec3, s: real, t: real)
    ensures Scale(Scale(a, s), t) == Scale(a, s * t)
  {
    assert a.x * s * t == a.x * (s * t);
    assert a.y * s * t == a.y * (s * t);
    assert a.z * s * t == a.z * (s * t);
  }

  /** Scaling distributes over a sum of factors. */
  lemma ScaleDistributes(a: Vec3, s: real, t: real)
    ensures Add(Scale(a, s), Scale(a, t)) == Scale(a, s + t)
  {
    assert a.x * s + a.x * t == a.x * (s + t);
    assert a.y * s + a.y * t == a.y * (s + t);
    assert a.z * s + a.z * t == a.z * (s + t);
  }
}
