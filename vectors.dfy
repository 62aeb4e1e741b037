/**
 * The small slice of vector arithmetic the simulation uses (the engine's
 * Vec2, Vec3 and Vec4), over exact reals instead of 32-bit floats.
 */
module Vectors {

  datatype Vec2 = Vec2(x: real, y: real) {

    function Plus(o: Vec2): Vec2 { Vec2(x + o.x, y + o.y) }

    function Minus(o: Vec2): Vec2 { Vec2(x - o.x, y - o.y) }

    function Negated(): Vec2 { Vec2(-x, -y) }

    function Scaled(s: real): Vec2 { Vec2(x * s, y * s) }

    function DividedBy(s: real): Vec2
      requires s != 0.0
    {
      Vec2(x / s, y / s)
    }

    function Dot(o: Vec2): real { x * o.x + y * o.y }

    function LengthSquared(): real { x * x + y * y }

    /** Appends a third coordinate, as `Vec2::extend` does. */
    function Extend(z: real): Vec3 { Vec3(x, y, z) }
  }

  datatype Vec3 = Vec3(x: real, y: real, z: real) {

    /** Appends a fourth coordinate, as `Vec3::extend` does. */
    function Extend(w: real): Vec4 { Vec4(x, y, z, w) }
  }

  datatype Vec4 = Vec4(x: real, y: real, z: real, w: real)

  const ZERO2: Vec2 := Vec2(0.0, 0.0)
  const UNIT_Y: Vec2 := Vec2(0.0, 1.0)
  const ZERO4: Vec4 := Vec4(0.0, 0.0, 0.0, 0.0)

  /** Squared Euclidean distance between two points. */
  function SquaredDistance(p: Vec2, q: Vec2): real {
    q.Minus(p).LengthSquared()
  }
}
