/** Three-component real vectors: gradient directions, mesh positions, face
    normals. The source keeps them as three-element arrays. */
module Vectors {

  datatype Vec3 = Vec3(x: real, y: real, z: real)

  const Zero := Vec3(0.0, 0.0, 0.0)

  function Dot(a: Vec3, b: Vec3): real
  {
    a.x * b.x + a.y * b.y + a.z * b.z
  }

  function Sub(a: Vec3, b: Vec3): Vec3
  {
    Vec3(a.x - b.x, a.y - b.y, a.z - b.z)
  }

  /** `cross(a, b)`. */
  function Cross(a: Vec3, b: Vec3): Vec3
  {
    Vec3(a.y * b.z - a.z * b.y,
         a.z * b.x - a.x * b.z,
         a.x * b.y - a.y * b.x)
  }

  /** The cross product is perpendicular to both of its arguments. */
  lemma CrossPerpendicular(a: Vec3, b: Vec3)
    ensures Dot(Cross(a, b), a) == 0.0 && Dot(Cross(a, b), b) == 0.0
  {
  }

  /** The cross product of a vector with itself, or with the zero vector, is
      zero: a degenerate triangle contributes nothing to a vertex normal. */
  lemma CrossDegenerate(a: Vec3)
    ensures Cross(a, a) == Zero && Cross(a, Zero) == Zero
  {
  }
}
