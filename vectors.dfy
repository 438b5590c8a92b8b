// The cgmath vectors the program uses, over the reals (`f32` is modelled
// as `real`; rounding, NaN and infinities are not modelled).
module Vectors {

  datatype Vec2 = Vec2(x: real, y: real)

  datatype Vec3 = Vec3(x: real, y: real, z: real) {
    function Add(o: Vec3): Vec3 { Vec3(x + o.x, y + o.y, z + o.z) }
    function Sub(o: Vec3): Vec3 { Vec3(x - o.x, y - o.y, z - o.z) }
    function Scale(s: real): Vec3 { Vec3(x * s, y * s, z * s) }
    function Neg(): Vec3 { Vec3(-x, -y, -z) }
    function Dot(o: Vec3): real { x * o.x + y * o.y + z * o.z }
    function Cross(o: Vec3): Vec3 {
      Vec3(y * o.z - z * o.y, z * o.x - x * o.z, x * o.y - y * o.x)
    }
  }

  /** A 4-component vector; only its parts are read (`xyz()`, `w()`). */
  datatype Vec4 = Vec4(x: real, y: real, z: real, w: real) {
    function Xyz(): Vec3 { Vec3(x, y, z) }
  }

  const Zero3 := Vec3(0.0, 0.0, 0.0)

  /** Euclidean length has no closed form over Dafny's reals: every member that
      calls `magnitude()` or `normalize()` in the source takes the length
      function as a parameter that must satisfy this predicate. */
  ghost predicate IsMagnitude(magnitude: Vec3 -> real) {
    forall v :: magnitude(v) >= 0.0 && magnitude(v) * magnitude(v) == v.Dot(v)
  }

  /** `normalize()`: v divided by its length. */
  function Normalize(v: Vec3, magnitude: Vec3 -> real): (r: Vec3)
    requires magnitude(v) != 0.0
  {
    v.Scale(1.0 / magnitude(v))
  }

  lemma DotSymmetric(u: Vec3, v: Vec3)
    ensures u.Dot(v) == v.Dot(u)
  {
  }

  /** The dot product is linear in its argument. */
  lemma DotOfCombination(u: Vec3, p: Vec3, q: Vec3, a: real, b: real)
    ensures u.Dot(p.Scale(a).Add(q.Scale(b))) == a * u.Dot(p) + b * u.Dot(q)
  {
    assert u.x * (p.x * a + q.x * b) == a * (u.x * p.x) + b * (u.x * q.x);
    assert u.y * (p.y * a + q.y * b) == a * (u.y * p.y) + b * (u.y * q.y);
    assert u.z * (p.z * a + q.z * b) == a * (u.z * p.z) + b * (u.z * q.z);
  }

  lemma CancelFactor(c: real, m: real)
    requires m != 0.0
    ensures c * (m * m) / m == c * m
  {
    assert c * (m * m) == (c * m) * m;
  }
}
