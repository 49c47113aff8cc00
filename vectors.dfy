/** Vectors of the fan model: points are homogeneous (x, y, z, 1), colours are
    rgba, normals are kept symbolic because `normalize` (a square root) is left
    to floating point. */
module Vectors {

  datatype Vec2 = Vec2(x: real, y: real)
  datatype Vec3 = Vec3(x: real, y: real, z: real)
  datatype Vec4 = Vec4(x: real, y: real, z: real, w: real)

  /** An rgba colour, as `vec4(r, g, b, a)`. */
  type Color = Vec4

  /** The trigonometry the emitters read: `circle(i, n)` is (cos θ, sin θ) for
      θ = i/n of a full turn, as `Math.cos` and `Math.sin` compute it. */
  type Circle = (nat, nat) -> Vec2

  /** A point `vec4(x, y, z, 1)`. */
  function Point(x: real, y: real, z: real): Vec4 {
    Vec4(x, y, z, 1.0)
  }

  /** `subtract` on two vec4 values. */
  function Sub(a: Vec4, b: Vec4): Vec4 {
    Vec4(a.x - b.x, a.y - b.y, a.z - b.z, a.w - b.w)
  }

  /** `vec3(v)` of a vec4: its first three coordinates. */
  function Xyz(a: Vec4): Vec3 {
    Vec3(a.x, a.y, a.z)
  }

  function Cross(a: Vec3, b: Vec3): Vec3 {
    Vec3(a.y * b.z - a.z * b.y, a.z * b.x - a.x * b.z, a.x * b.y - a.y * b.x)
  }

  function Neg(a: Vec3): Vec3 {
    Vec3(-a.x, -a.y, -a.z)
  }

  function Dot(a: Vec3, b: Vec3): real {
    a.x * b.x + a.y * b.y + a.z * b.z
  }

  /** The vector from `c` to the point `p`. */
  function From(c: Vec3, p: Vec4): Vec3 {
    Vec3(p.x - c.x, p.y - c.y, p.z - c.z)
  }

  /** A normal as the emitters produce it: a vector pushed as given, the result
      of `normalize(v)`, or the negation of `normalize(v)`. */
  datatype Normal =
    | Exact(v: Vec3)
    | NormalizeOf(v: Vec3)
    | NegatedNormalizeOf(v: Vec3)
}
