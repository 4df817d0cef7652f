/**
 * The javax.vecmath / joml values the game copies around: vectors,
 * quaternions and colours.  Float components are modelled as reals.
 */
module Geometry {

  datatype Vec3 = Vec3(x: real, y: real, z: real) {
    function Plus(o: Vec3): (r: Vec3)
      ensures r.x - x == o.x && r.y - y == o.y && r.z - z == o.z
    {
      Vec3(x + o.x, y + o.y, z + o.z)
    }

    function Scaled(k: real): (r: Vec3)
      ensures k == 0.0 ==> r == Vec3(0.0, 0.0, 0.0)
      ensures k == 1.0 ==> r == this
    {
      Vec3(x * k, y * k, z * k)
    }
  }

  datatype Quat = Quat(x: real, y: real, z: real, w: real)

  datatype Color = Color(r: real, g: real, b: real, a: real)

  const ORIGIN := Vec3(0.0, 0.0, 0.0)
  /** Quat4f(0, 0, 0, 1): no rotation. */
  const IDENTITY := Quat(0.0, 0.0, 0.0, 1.0)
  const WHITE := Color(1.0, 1.0, 1.0, 1.0)
  const RED := Color(1.0, 0.0, 0.0, 1.0)
}
