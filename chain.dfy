/** Chain bookkeeping shared by the CCD and FABRIK solvers: link lengths, parent-relative
    rotations, and the rebuild of world rotations and positions from relative rotations. */
module Chains {
  import opened UnityMath

  /** distances[i] = (p[i + 1] - p[i]).magnitude, one entry per link. */
  function LinkLengths(g: Ops, p: seq<Vector3>): (d: seq<real>)
    requires |p| >= 1
    ensures |d| == |p| - 1
  {
    seq(|p| - 1, i requires 0 <= i < |p| - 1 => g.magnitude(g.sub(p[i + 1], p[i])))
  }

  /** Parent-relative rotations: Inverse(base) * r[0] for the root, Inverse(r[i-1]) * r[i]
      for the others. */
  function LocalRotations(g: Ops, base: Quaternion, r: seq<Quaternion>): (l: seq<Quaternion>)
    ensures |l| == |r|
  {
    seq(|r|, i requires 0 <= i < |r| =>
      if i == 0 then g.mul(g.inverse(base), r[0]) else g.mul(g.inverse(r[i - 1]), r[i]))
  }

  /** World rotation of node i: base * l[0] * ... * l[i], composed left to right. */
  function WorldRotation(g: Ops, base: Quaternion, l: seq<Quaternion>, i: nat): Quaternion
    requires i < |l|
  {
    if i == 0 then g.mul(base, l[0]) else g.mul(WorldRotation(g, base, l, i - 1), l[i])
  }

  function WorldRotations(g: Ops, base: Quaternion, l: seq<Quaternion>): (w: seq<Quaternion>)
    ensures |w| == |l|
    ensures |l| >= 1 ==> w[0] == g.mul(base, l[0])
  {
    seq(|l|, i requires 0 <= i < |l| => WorldRotation(g, base, l, i))
  }

  /** Position of node i when every node hangs distances[i-1] along its parent's rotated
      Vector3.up: the root stays put, node i sits at
      parentRotation * (distances[i-1] * up) + parentPosition. */
  function ChainPosition(g: Ops, base: Quaternion, l: seq<Quaternion>, d: seq<real>,
                         root: Vector3, i: nat): Vector3
    requires i < |l| && |d| == |l| - 1
  {
    if i == 0 then root
    else g.add(g.rotate(WorldRotation(g, base, l, i - 1), g.scale(d[i - 1], Up)),
               ChainPosition(g, base, l, d, root, i - 1))
  }

  function ChainPositions(g: Ops, base: Quaternion, l: seq<Quaternion>, d: seq<real>,
                          root: Vector3): (p: seq<Vector3>)
    requires |d| == |l| - 1
    ensures |p| == |l|
    ensures |l| >= 1 ==> p[0] == root
  {
    seq(|l|, i requires 0 <= i < |l| => ChainPosition(g, base, l, d, root, i))
  }

  /** The rebuild recurrence on whole sequences: every node but the root turns its parent's
      world rotation by its own relative rotation, and hangs its link length along its
      parent's rotated Vector3.up from its parent's position. */
  lemma RebuildRecurrence(g: Ops, base: Quaternion, l: seq<Quaternion>, d: seq<real>, root: Vector3, i: nat)
    requires |d| == |l| - 1 && 1 <= i < |l|
    ensures var w, p := WorldRotations(g, base, l), ChainPositions(g, base, l, d, root);
            w[i] == g.mul(w[i - 1], l[i]) &&
            p[i] == g.add(g.rotate(w[i - 1], g.scale(d[i - 1], Up)), p[i - 1])
  {
  }

  /** The chain (p, r) is exactly what relative rotations l and link lengths d rebuild from the
      root position p[0]. */
  ghost predicate Rebuilt(g: Ops, base: Quaternion, l: seq<Quaternion>, d: seq<real>,
                          p: seq<Vector3>, r: seq<Quaternion>)
  {
    |l| >= 1 && |d| == |l| - 1 && |p| == |l| &&
    r == WorldRotations(g, base, l) && p == ChainPositions(g, base, l, d, p[0])
  }

  predicate Sized<J>(joints: seq<J>, p: seq<Vector3>, r: seq<Quaternion>, l: seq<Quaternion>)
  {
    |joints| == |p| == |r| == |l|
  }

  /** The working state of a solver's main loop: node positions and rotations, the relative
      rotations it returns, and the iteration counter. */
  datatype State = State(positions: seq<Vector3>, rotations: seq<Quaternion>,
                         locals: seq<Quaternion>, iterations: int)

  /** One entry per joint in every part of the state, at least one joint, one link length
      fewer than joints. */
  predicate WellFormed<J>(joints: seq<J>, d: seq<real>, s: State)
  {
    |joints| >= 1 && Sized(joints, s.positions, s.rotations, s.locals) && |d| == |joints| - 1
  }
}
