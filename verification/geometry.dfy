/**
 * Poses and rigid transforms, as the transform library of the navigation
 * stack represents them: a position vector plus an orientation quaternion
 * (x, y, z, w).  Double-precision floats are modelled as reals.
 */
module Geometry {

  datatype Vector3 = Vector3(x: real, y: real, z: real)

  datatype Quaternion = Quaternion(x: real, y: real, z: real, w: real)

  /** A pose: where the robot (or a goal) is and which way it faces. */
  datatype Pose = Pose(position: Vector3, orientation: Quaternion)

  /** A rigid transform: a rotation followed by a translation. */
  datatype Transform = Transform(rotation: Quaternion, origin: Vector3)

  const ZeroVector := Vector3(0.0, 0.0, 0.0)
  const IdentityRotation := Quaternion(0.0, 0.0, 0.0, 1.0)
  const IdentityTransform := Transform(IdentityRotation, ZeroVector)

  function Add(a: Vector3, b: Vector3): Vector3 {
    Vector3(a.x + b.x, a.y + b.y, a.z + b.z)
  }

  /** Hamilton product of two quaternions. */
  function Mul(a: Quaternion, b: Quaternion): Quaternion {
    Quaternion(a.w * b.x + a.x * b.w + a.y * b.z - a.z * b.y,
               a.w * b.y + a.y * b.w + a.z * b.x - a.x * b.z,
               a.w * b.z + a.z * b.w + a.x * b.y - a.y * b.x,
               a.w * b.w - a.x * b.x - a.y * b.y - a.z * b.z)
  }

  function Conjugate(q: Quaternion): Quaternion {
    Quaternion(-q.x, -q.y, -q.z, q.w)
  }

  /** Rotates v by the unit quaternion q (q v q*). */
  function Rotate(q: Quaternion, v: Vector3): Vector3 {
    var r := Mul(Mul(q, Quaternion(v.x, v.y, v.z, 0.0)), Conjugate(q));
    Vector3(r.x, r.y, r.z)
  }

  /** The product a * b of two transforms: apply b, then a. */
  function Then(a: Transform, b: Transform): Transform {
    Transform(Mul(a.rotation, b.rotation), Add(Rotate(a.rotation, b.origin), a.origin))
  }

  function AsTransform(p: Pose): Transform {
    Transform(p.orientation, p.position)
  }

  function AsPose(t: Transform): Pose {
    Pose(t.origin, t.rotation)
  }

  /** The product odomTf * mapTf * goal that re-expresses a goal in the planning frame. */
  function Compose(odomTf: Transform, mapTf: Transform, goal: Pose): Pose {
    AsPose(Then(Then(odomTf, mapTf), AsTransform(goal)))
  }

  lemma MulIdentity(q: Quaternion)
    ensures Mul(IdentityRotation, q) == q
    ensures Mul(q, IdentityRotation) == q
  {
  }

  lemma RotateIdentity(v: Vector3)
    ensures Rotate(IdentityRotation, v) == v
  {
    MulIdentity(Quaternion(v.x, v.y, v.z, 0.0));
  }

  /** The identity transform is a left unit of the product. */
  lemma ThenIdentity(t: Transform)
    ensures Then(IdentityTransform, t) == t
  {
    MulIdentity(t.rotation);
    RotateIdentity(t.origin);
  }

  /** Composing with two identity lookups leaves the goal where it was. */
  lemma ComposeIdentity(goal: Pose)
    ensures Compose(IdentityTransform, IdentityTransform, goal) == goal
  {
    ThenIdentity(IdentityTransform);
    ThenIdentity(AsTransform(goal));
  }
}
