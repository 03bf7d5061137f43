/** Points and vectors in world coordinates (the toolkit's `double[3]`), over `real`. */
module Geometry {
  datatype Vec3 = Vec3(x: real, y: real, z: real)

  /** Component `i` of `v`, as `v[i]` indexes a `double[3]`. */
  function Component(v: Vec3, i: nat): real
    requires i < 3
  {
    if i == 0 then v.x else if i == 1 then v.y else v.z
  }

  /** `v` with component `i` replaced by `r`, as `v[i] = r` on a `double[3]`. */
  function WithComponent(v: Vec3, i: nat, r: real): (w: Vec3)
    requires i < 3
    ensures Component(w, i) == r
    ensures forall k :: 0 <= k < 3 && k != i ==> Component(w, k) == Component(v, k)
  {
    if i == 0 then v.(x := r) else if i == 1 then v.(y := r) else v.(z := r)
  }

  function Neg(v: Vec3): Vec3 {
    Vec3(-v.x, -v.y, -v.z)
  }

  function Abs(r: real): real {
    if r < 0.0 then -r else r
  }
}
