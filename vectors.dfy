/** Small real-valued vectors standing for the glm `vec3`/`vec4` values the viewer computes with. */
module Vectors {

  datatype Vec3 = Vec3(x: real, y: real, z: real)

  datatype Vec4 = Vec4(x: real, y: real, z: real, w: real)

  /** `vec3(c)`: all three components equal to `c`. */
  function Splat(c: real): (v: Vec3)
    ensures v.x == c && v.y == c && v.z == c
  {
    Vec3(c, c, c)
  }

  function Add(a: Vec3, b: Vec3): Vec3
  {
    Vec3(a.x + b.x, a.y + b.y, a.z + b.z)
  }

  function Sub(a: Vec3, b: Vec3): Vec3
  {
    Vec3(a.x - b.x, a.y - b.y, a.z - b.z)
  }

  function Neg(a: Vec3): Vec3
  {
    Vec3(-a.x, -a.y, -a.z)
  }

  /** Component-wise `a <= b`. */
  predicate LessEq(a: Vec3, b: Vec3)
  {
    a.x <= b.x && a.y <= b.y && a.z <= b.z
  }

  function Min(a: real, b: real): (m: real)
    ensures m <= a && m <= b && (m == a || m == b)
  {
    if a <= b then a else b
  }

  function Max(a: real, b: real): (m: real)
    ensures m >= a && m >= b && (m == a || m == b)
  {
    if a >= b then a else b
  }
}
