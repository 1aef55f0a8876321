/** Vectors, quaternions and matrices as used through glm.

    Vectors are exact records over `real` (single-precision rounding is not
    modelled).  Quaternions and 4x4 matrices are kept SYMBOLIC: each glm
    operation that builds one is a constructor, so two values are equal
    exactly when they were built by the same operations from the same
    inputs.  The operations that need square roots or trigonometry are the
    fields of `Maths` and stay uninterpreted. */
module Geometry {
  datatype Vec2 = Vec2(x: real, y: real)
  datatype Vec3 = Vec3(x: real, y: real, z: real)

  const Zero3: Vec3 := Vec3(0.0, 0.0, 0.0)

  /** `(float)M_PI` and the multiples of it the code uses. */
  const Pi: real := 3.1415927410125732
  const TwoPi: real := 2.0 * Pi
  const HalfPi: real := Pi / 2.0
  const QuarterPi: real := Pi / 4.0

  function Add(a: Vec3, b: Vec3): Vec3 { Vec3(a.x + b.x, a.y + b.y, a.z + b.z) }
  function Sub(a: Vec3, b: Vec3): Vec3 { Vec3(a.x - b.x, a.y - b.y, a.z - b.z) }
  function Scale(s: real, v: Vec3): Vec3 { Vec3(s * v.x, s * v.y, s * v.z) }
  function Neg(v: Vec3): Vec3 { Vec3(-v.x, -v.y, -v.z) }
  function Dot(a: Vec3, b: Vec3): real { a.x * b.x + a.y * b.y + a.z * b.z }

  /** glm::cross. */
  function Cross(a: Vec3, b: Vec3): Vec3
  {
    Vec3(a.y * b.z - a.z * b.y, a.z * b.x - a.x * b.z, a.x * b.y - a.y * b.x)
  }

  /** The square of glm::distance. */
  function DistanceSquared(a: Vec3, b: Vec3): real
  {
    var d := Sub(a, b);
    Dot(d, d)
  }

  /** A cross product is orthogonal to both of its factors. */
  lemma CrossOrthogonal(a: Vec3, b: Vec3)
    ensures Dot(Cross(a, b), a) == 0.0
    ensures Dot(Cross(a, b), b) == 0.0
    ensures Dot(a, Cross(a, b)) == 0.0
    ensures Dot(b, Cross(a, b)) == 0.0
  {
  }

  /** glm::quat values, by construction. */
  datatype Quat =
    | IdentityQuat                          // a default-constructed glm::quat
    | AngleAxis(angle: real, axis: Vec3)    // glm::angleAxis
    | Product(lhs: Quat, rhs: Quat)         // q1 * q2
    | Normalized(q: Quat)                   // glm::normalize
    | Conjugate(q: Quat)                    // glm::conjugate
    | FromBasis(c0: Vec3, c1: Vec3, c2: Vec3) // glm::quat_cast of the 3x3 matrix with these columns

  /** glm::mat4 values, by construction. */
  datatype Mat4 =
    | IdentityMat4                          // a default-constructed glm::mat4
    | Perspective(fovy: real, aspect: real, zNear: real, zFar: real)
    | Ortho(left: real, right: real, bottom: real, top: real, zNear: real, zFar: real)
    | RotationOf(q: Quat)                   // glm::mat4_cast
    | PostTranslate(m: Mat4, v: Vec3)       // m with column 3 replaced by m * (v, 1), i.e. m * translate(v)

  /** The uninterpreted numeric operations: glm::normalize on vectors,
      rotation of a vector by a quaternion, cosf/sinf, the projection of a
      point through `projection * view` followed by the division by w, and
      the float that a division by zero gives (an infinity or a NaN, which
      a real cannot hold), as a function of the dividend. */
  datatype Maths = Maths(
    normalize: Vec3 -> Vec3,
    rotate: (Quat, Vec3) -> Vec3,
    cos: real -> real,
    sin: real -> real,
    project: (Mat4, Mat4, Vec3) -> Vec3,
    divideByZero: real -> real)

  /** The float quotient a / b. */
  function Quotient(maths: Maths, a: real, b: real): (q: real)
    ensures b != 0.0 ==> q * b == a
  {
    if b != 0.0 then a / b else maths.divideByZero(a)
  }
}
