/** Three-component vectors over the reals: the part of the engine's vector type
    that the core's linear formulas use (copy, add, scale). */
module Vectors {
  datatype Vec3 = Vec3(x: real, y: real, z: real)

  function Add(a: Vec3, b: Vec3): (r: Vec3)
    ensures r.x == a.x + b.x && r.y == a.y + b.y && r.z == a.z + b.z
  {
    Vec3(a.x + b.x, a.y + b.y, a.z + b.z)
  }

  function Scale(v: Vec3, k: real): (r: Vec3)
    ensures r.x == v.x * k && r.y == v.y * k && r.z == v.z * k
  {
    Vec3(v.x * k, v.y * k, v.z * k)
  }

  /** `a.addScaledVector(v, k)` in the engine's terms. */
  function AddScaled(a: Vec3, v: Vec3, k: real): (r: Vec3)
    ensures r == Add(a, Scale(v, k))
  {
    Vec3(a.x + v.x * k, a.y + v.y * k, a.z + v.z * k)
  }

  /** Two steps along the same vector are one step of the summed length. */
  lemma AddScaledTwice(a: Vec3, v: Vec3, s: real, t: real)
    ensures AddScaled(AddScaled(a, v, s), v, t) == AddScaled(a, v, s + t)
  {
    assert v.x * s + v.x * t == v.x * (s + t);
    assert v.y * s + v.y * t == v.y * (s + t);
    assert v.z * s + v.z * t == v.z * (s + t);
  }
}
