/** Three-component vectors and rotations over the reals, standing in for
    Unity's single-precision Vector3 and Quaternion. Dafny has no square
    root, so wherever the game asks the engine for a vector's magnitude the
    model takes that magnitude as a parameter and checks it against the
    squared magnitude (see IsMagnitudeOf). */
module Geometry {

  datatype Vec3 = Vec3(x: real, y: real, z: real)

  /** Unity's Quaternion, kept opaque: the core only copies rotations around. */
  datatype Quat = Quat(x: real, y: real, z: real, w: real)

  const Zero := Vec3(0.0, 0.0, 0.0)
  const Up := Vec3(0.0, 1.0, 0.0)
  const Forward := Vec3(0.0, 0.0, 1.0)
  const Identity := Quat(0.0, 0.0, 0.0, 1.0)

  function Add(a: Vec3, b: Vec3): Vec3 {
    Vec3(a.x + b.x, a.y + b.y, a.z + b.z)
  }

  function Scale(v: Vec3, k: real): Vec3 {
    Vec3(v.x * k, v.y * k, v.z * k)
  }

  function SqrMagnitude(v: Vec3): real {
    v.x * v.x + v.y * v.y + v.z * v.z
  }

  /** `m` is the Euclidean length of `v`. */
  predicate IsMagnitudeOf(m: real, v: Vec3) {
    m >= 0.0 && m * m == SqrMagnitude(v)
  }

  /** The same vector with its vertical component set to zero (`v.y = 0f`). */
  function Flatten(v: Vec3): (r: Vec3)
    ensures r.y == 0.0 && r.x == v.x && r.z == v.z
  {
    v.(y := 0.0)
  }

  /** `v.normalized` for a vector whose magnitude `m` is positive: the
      result has length one and points the same way as `v`. */
  function Normalized(v: Vec3, m: real): (r: Vec3)
    requires IsMagnitudeOf(m, v) && m > 0.0
    ensures SqrMagnitude(r) == 1.0
    ensures r == Scale(v, 1.0 / m)
  {
    var r := Scale(v, 1.0 / m);
    assert SqrMagnitude(r) == SqrMagnitude(v) / (m * m) by {
      assert r.x * r.x == (v.x * v.x) / (m * m);
      assert r.y * r.y == (v.y * v.y) / (m * m);
      assert r.z * r.z == (v.z * v.z) / (m * m);
    }
    r
  }

  /** `Mathf.Max` and `Mathf.Min` on reals. */
  function MaxR(a: real, b: real): (r: real)
    ensures r >= a && r >= b && (r == a || r == b)
  {
    if a > b then a else b
  }

  function MinR(a: real, b: real): (r: real)
    ensures r <= a && r <= b && (r == a || r == b)
  {
    if a < b then a else b
  }

  function Abs(a: real): (r: real)
    ensures r >= 0.0 && (r == a || r == -a)
  {
    if a < 0.0 then -a else a
  }

  /** `Mathf.Clamp(value, lo, hi)` for lo <= hi. */
  function Clamp(value: real, lo: real, hi: real): (r: real)
    requires lo <= hi
    ensures lo <= r <= hi
    ensures lo <= value <= hi ==> r == value
    ensures value < lo ==> r == lo
    ensures value > hi ==> r == hi
  {
    if value < lo then lo else if value > hi then hi else value
  }
}
