/** The engine's vector and rotation types. The components are kept so that the engine's named
    constants (Vector3.up, Quaternion.identity, the all-zero default Quaternion) are exact values;
    every operation on them is engine code that is not part of this model, so it is supplied as a
    field of `Ops` and nothing is assumed about it. An equation proved about the solvers therefore
    holds for every implementation of these operations, floating point included. */
module UnityMath {

  datatype Vector3 = Vector3(x: real, y: real, z: real)

  datatype Quaternion = Quaternion(x: real, y: real, z: real, w: real)

  /** Vector3.up, the canonical "link" direction of every node. */
  const Up: Vector3 := Vector3(0.0, 1.0, 0.0)

  /** Quaternion.identity. */
  const Identity: Quaternion := Quaternion(0.0, 0.0, 0.0, 1.0)

  /** default(Quaternion): the value a fresh Quaternion[] slot holds. It is NOT the identity. */
  const DefaultRotation: Quaternion := Quaternion(0.0, 0.0, 0.0, 0.0)

  /** The engine operations the solvers call, left uninterpreted. */
  datatype Ops = Ops(
    add: (Vector3, Vector3) -> Vector3,              // a + b
    sub: (Vector3, Vector3) -> Vector3,              // a - b
    scale: (real, Vector3) -> Vector3,               // k * v and v * k
    magnitude: Vector3 -> real,                      // v.magnitude
    normalized: Vector3 -> Vector3,                  // v.normalized
    mul: (Quaternion, Quaternion) -> Quaternion,     // p * q
    rotate: (Quaternion, Vector3) -> Vector3,        // q * v
    inverse: Quaternion -> Quaternion,               // Quaternion.Inverse(q)
    fromToRotation: (Vector3, Vector3) -> Quaternion, // Quaternion.FromToRotation(from, to)
    projectOnPlane: (Vector3, Vector3) -> Vector3,   // Vector3.ProjectOnPlane(v, normal)
    toAngleAxis: Quaternion -> (real, Vector3),      // q.ToAngleAxis(out angle, out axis)
    angleAxis: (real, Vector3) -> Quaternion)        // Quaternion.AngleAxis(angle, axis)

  /** `(target - p).magnitude`, the solvers' distance to the target. */
  function DistanceToTarget(g: Ops, target: Vector3, p: Vector3): real
  {
    g.magnitude(g.sub(target, p))
  }
}
