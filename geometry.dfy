/** Points in space and the distance between them. */
module Geometry {

  /** A point or a vector: the three consecutive slots x, y, z one particle
      owns in a position, previous-position or velocity buffer. */
  datatype Vec3 = Vec3(x: real, y: real, z: real)

  /** `sqrt` returns the non-negative square root of every non-negative real
      (what `Math.sqrt` does in exact arithmetic). */
  ghost predicate IsSqrt(sqrt: real -> real) {
    forall x: real :: 0.0 <= x ==> 0.0 <= sqrt(x) && sqrt(x) * sqrt(x) == x
  }

  /** The squared Euclidean distance dx*dx + dy*dy + dz*dz between two points. */
  function SquaredDistance(a: Vec3, b: Vec3): real
  {
    var dx := a.x - b.x;
    var dy := a.y - b.y;
    var dz := a.z - b.z;
    dx * dx + dy * dy + dz * dz
  }

  /** The Euclidean distance between two points, through the square root `sqrt`. */
  function Distance(sqrt: real -> real, a: Vec3, b: Vec3): real
  {
    sqrt(SquaredDistance(a, b))
  }
}
