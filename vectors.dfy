// Real-valued stand-ins for glm::vec2 and glm::vec3 and the few operators the core uses.
module Vectors {

  datatype Vec3 = Vec3(x: real, y: real, z: real)
  datatype Vec2 = Vec2(x: real, y: real)

  const Origin3: Vec3 := Vec3(0.0, 0.0, 0.0)
  const Origin2: Vec2 := Vec2(0.0, 0.0)

  function Add(a: Vec3, b: Vec3): Vec3 {
    Vec3(a.x + b.x, a.y + b.y, a.z + b.z)
  }

  function Sub(a: Vec3, b: Vec3): Vec3 {
    Vec3(a.x - b.x, a.y - b.y, a.z - b.z)
  }

  /** `v * k` for a vector and a scalar. */
  function Scale(v: Vec3, k: real): Vec3 {
    Vec3(v.x * k, v.y * k, v.z * k)
  }

  /** `(a + b) / 2.0f`: the point halfway between `a` and `b`. */
  function Midpoint(a: Vec3, b: Vec3): (m: Vec3)
    ensures Sub(m, a) == Sub(b, m)
  {
    Vec3((a.x + b.x) / 2.0, (a.y + b.y) / 2.0, (a.z + b.z) / 2.0)
  }

  /** `cross(a, b)`, used for the strafe direction. */
  function Cross(a: Vec3, b: Vec3): Vec3 {
    Vec3(a.y * b.z - a.z * b.y, a.z * b.x - a.x * b.z, a.x * b.y - a.y * b.x)
  }

  function Add2(a: Vec2, b: Vec2): Vec2 {
    Vec2(a.x + b.x, a.y + b.y)
  }

  function Sub2(a: Vec2, b: Vec2): Vec2 {
    Vec2(a.x - b.x, a.y - b.y)
  }

  /** The planar offset `vec2(d.x, -d.z)` the camera code derives from a 3D step `d`. */
  function Planar(d: Vec3): Vec2 {
    Vec2(d.x, -d.z)
  }
}
