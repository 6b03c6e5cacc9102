/** The cyclic-coordinate-descent solver (MyCCDIKSolver). Each iteration sweeps the joints from
    the one before the tip down to the root, turning each joint so that the current end-effector
    estimate swings towards the target in the plane normal to the joint's axis, clamps the
    turned relative rotation to the joint's angle limits, and then rebuilds the world rotations
    and positions of the whole chain from the relative rotations and the fixed link lengths. */
module CCD {
  import opened UnityMath
  import opened Wrappers
  import opened IKNodes
  import opened Chains

  /** The solver's `tolerance` field default. */
  const DefaultTolerance: real := 0.01

  /** The angle satisfies every limit the joint enables. */
  predicate WithinLimits(j: Joint, angle: real)
  {
    (!j.useRotationMin || j.rotationMin <= angle) && (!j.useRotationMax || angle <= j.rotationMax)
  }

  /** The joint's limits can be met at all: not both enabled with min above max. */
  predicate Consistent(j: Joint)
  {
    !(j.useRotationMin && j.useRotationMax) || j.rotationMin <= j.rotationMax
  }

  predicate Limited(j: Joint)
  {
    j.useRotationMin || j.useRotationMax
  }

  /** The angle after `Mathf.Max(angle, min)` (when min is enabled) and then
      `Mathf.Min(angle, max)` (when max is enabled). */
  function ConstrainedAngle(j: Joint, angle: real): (a: real)
    ensures j.useRotationMax ==> a <= j.rotationMax
    ensures j.useRotationMin && (!j.useRotationMax || j.rotationMin <= j.rotationMax) ==> j.rotationMin <= a
    ensures Consistent(j) ==> WithinLimits(j, a)
    ensures WithinLimits(j, angle) ==> a == angle
    ensures j.useRotationMin && angle < j.rotationMin && Consistent(j) ==> a == j.rotationMin
    ensures j.useRotationMax && angle > j.rotationMax ==> a == j.rotationMax
    ensures j.useRotationMin && j.useRotationMax && j.rotationMin > j.rotationMax ==> a == j.rotationMax
  {
    var lo := if j.useRotationMin && angle < j.rotationMin then j.rotationMin else angle;
    if j.useRotationMax && lo > j.rotationMax then j.rotationMax else lo
  }

  /** q is the rotation by some angle within the joint's limits about some axis. */
  ghost predicate AngleLimited(g: Ops, j: Joint, q: Quaternion)
  {
    exists angle: real, axis: Vector3 :: WithinLimits(j, angle) && q == g.angleAxis(angle, axis)
  }

  /** ApplyRotationConstraint: a joint without limits passes the rotation through; otherwise
      the rotation is split into angle and axis, the angle is clamped, and the rotation is
      rebuilt about the same axis. */
  function ApplyRotationConstraint(g: Ops, node: Joint, rotation: Quaternion): (r: Quaternion)
    ensures !Limited(node) ==> r == rotation
    ensures Limited(node) ==>
              var (angle, axis) := g.toAngleAxis(rotation); r == g.angleAxis(ConstrainedAngle(node, angle), axis)
  {
    if node.useRotationMin || node.useRotationMax then
      var (angle, axis) := g.toAngleAxis(rotation);
      var a := ConstrainedAngle(node, angle);
      g.angleAxis(a, axis)
    else
      rotation
  }

  /** A joint with consistent limits always gets a rotation about the axis ToAngleAxis reports,
      by an angle within the limits; a rotation whose reported angle is already within them
      comes back as AngleAxis of its own angle and axis. */
  lemma ConstraintWithinLimits(g: Ops, node: Joint, rotation: Quaternion)
    requires Limited(node) && Consistent(node)
    ensures var (angle, axis) := g.toAngleAxis(rotation);
            var r := ApplyRotationConstraint(g, node, rotation);
            (exists a :: WithinLimits(node, a) && r == g.angleAxis(a, axis)) &&
            (WithinLimits(node, angle) ==> r == g.angleAxis(angle, axis))
    ensures AngleLimited(g, node, ApplyRotationConstraint(g, node, rotation))
  {
    var (angle, axis) := g.toAngleAxis(rotation);
    assert WithinLimits(node, ConstrainedAngle(node, angle));
  }

  /** One joint of the sweep, for the joint at position p with world rotation r: express the
      target and the current end estimate in the joint's frame, project both on the plane
      normal to the joint's axis, turn the relative rotation by the rotation between the two
      projections, clamp it, and move the end estimate along with the turn. */
  function SweepStep(g: Ops, joint: Joint, p: Vector3, r: Quaternion, target: Vector3,
                     local: Quaternion, end: Vector3): (Quaternion, Vector3)
  {
    var targetVector := g.rotate(g.inverse(r), g.sub(target, p));
    var endVector := g.rotate(g.inverse(r), g.sub(end, p));
    var projectedToTarget := g.projectOnPlane(targetVector, joint.axis);
    var projectedToEnd := g.projectOnPlane(endVector, joint.axis);
    var diff := g.fromToRotation(projectedToEnd, projectedToTarget);
    (ApplyRotationConstraint(g, joint, g.mul(diff, local)),
     g.add(g.rotate(r, g.rotate(diff, endVector)), p))
  }

  /** The sweep over joints k - 1 down to 0 from relative rotations l and end estimate `end`:
      the new relative rotations and the final end estimate. Joints at k and above keep their
      relative rotation; every swept joint with limits ends within them. */
  function Sweep(g: Ops, joints: seq<Joint>, p: seq<Vector3>, r: seq<Quaternion>, target: Vector3,
                 l: seq<Quaternion>, end: Vector3, k: nat): (res: (seq<Quaternion>, Vector3))
    requires Sized(joints, p, r, l) && k <= |l|
    ensures |res.0| == |l|
    ensures forall i :: k <= i < |l| ==> res.0[i] == l[i]
    decreases k
  {
    if k == 0 then (l, end)
    else
      var (local, end') := SweepStep(g, joints[k - 1], p[k - 1], r[k - 1], target, l[k - 1], end);
      Sweep(g, joints, p, r, target, l[k - 1 := local], end', k - 1)
  }

  /** Every swept joint with consistent limits ends with a relative rotation within them. */
  lemma {:induction false} SweepWithinLimits(g: Ops, joints: seq<Joint>, p: seq<Vector3>, r: seq<Quaternion>,
                                             target: Vector3, l: seq<Quaternion>, end: Vector3, k: nat, i: nat)
    requires Sized(joints, p, r, l) && i < k <= |l|
    requires Limited(joints[i]) && Consistent(joints[i])
    ensures AngleLimited(g, joints[i], Sweep(g, joints, p, r, target, l, end, k).0[i])
    decreases k
  {
    var (local, end') := SweepStep(g, joints[k - 1], p[k - 1], r[k - 1], target, l[k - 1], end);
    if i == k - 1 {
      var diff := g.fromToRotation(g.projectOnPlane(g.rotate(g.inverse(r[i]), g.sub(end, p[i])), joints[i].axis),
                                   g.projectOnPlane(g.rotate(g.inverse(r[i]), g.sub(target, p[i])), joints[i].axis));
      ConstraintWithinLimits(g, joints[i], g.mul(diff, l[i]));
    } else {
      SweepWithinLimits(g, joints, p, r, target, l[k - 1 := local], end', k - 1, i);
    }
  }

  /** One iteration: sweep from the tip's position, then rebuild rotations and positions from
      the root. */
  function Iterate(g: Ops, joints: seq<Joint>, base: Quaternion, d: seq<real>, target: Vector3,
                   s: State): (t: State)
    requires WellFormed(joints, d, s)
    ensures WellFormed(joints, d, t)
  {
    var n := |joints|;
    var (l, _) := Sweep(g, joints, s.positions, s.rotations, target, s.locals, s.positions[n - 1], n - 1);
    State(ChainPositions(g, base, l, d, s.positions[0]), WorldRotations(g, base, l), l, s.iterations + 1)
  }

  lemma IterateUnfold(g: Ops, joints: seq<Joint>, base: Quaternion, d: seq<real>, target: Vector3, s: State)
    requires WellFormed(joints, d, s)
    ensures var l := Sweep(g, joints, s.positions, s.rotations, target, s.locals,
                           s.positions[|joints| - 1], |joints| - 1).0;
            Iterate(g, joints, base, d, target, s) ==
              State(ChainPositions(g, base, l, d, s.positions[0]), WorldRotations(g, base, l), l, s.iterations + 1)
  {
  }

  /** The main loop: iterate while the tip is farther than `tolerance` from the target and
      fewer than `limit` iterations have run. */
  function Run(g: Ops, joints: seq<Joint>, base: Quaternion, d: seq<real>, target: Vector3,
               tolerance: real, limit: int, s: State): (t: State)
    requires WellFormed(joints, d, s)
    ensures WellFormed(joints, d, t)
    decreases limit - s.iterations
  {
    if DistanceToTarget(g, target, s.positions[|joints| - 1]) > tolerance && s.iterations < limit then
      Run(g, joints, base, d, target, tolerance, limit, Iterate(g, joints, base, d, target, s))
    else s
  }

  /** The state SolveIK starts from: the nodes as given and their parent-relative rotations. */
  function Initial(g: Ops, base: Quaternion, p: seq<Vector3>, r: seq<Quaternion>): (s: State)
    requires |p| == |r|
    ensures s.positions == p && s.rotations == r && s.iterations == 0
    ensures s.locals == LocalRotations(g, base, r)
  {
    State(p, r, LocalRotations(g, base, r), 0)
  }

  /** The loop ends in a state where its condition fails, and never runs past the limit. */
  lemma {:induction false} RunStops(g: Ops, joints: seq<Joint>, base: Quaternion, d: seq<real>,
                                    target: Vector3, tolerance: real, limit: int, s: State)
    requires WellFormed(joints, d, s)
    ensures var t := Run(g, joints, base, d, target, tolerance, limit, s);
            (DistanceToTarget(g, target, t.positions[|joints| - 1]) <= tolerance || t.iterations >= limit) &&
            s.iterations <= t.iterations && (t.iterations == s.iterations || t.iterations <= limit)
    decreases limit - s.iterations
  {
    if DistanceToTarget(g, target, s.positions[|joints| - 1]) > tolerance && s.iterations < limit {
      RunStops(g, joints, base, d, target, tolerance, limit, Iterate(g, joints, base, d, target, s));
    }
  }

  /** When the tip is already within tolerance, or the limit allows no iteration, the state is
      returned as it came. */
  lemma RunIdle(g: Ops, joints: seq<Joint>, base: Quaternion, d: seq<real>, target: Vector3,
                tolerance: real, limit: int, s: State)
    requires WellFormed(joints, d, s)
    requires DistanceToTarget(g, target, s.positions[|joints| - 1]) <= tolerance || limit <= s.iterations
    ensures Run(g, joints, base, d, target, tolerance, limit, s) == s
  {
  }

  /** The root never moves: every rebuild starts from the root's own position. */
  lemma {:induction false} RunKeepsRoot(g: Ops, joints: seq<Joint>, base: Quaternion, d: seq<real>,
                                        target: Vector3, tolerance: real, limit: int, s: State)
    requires WellFormed(joints, d, s)
    ensures Run(g, joints, base, d, target, tolerance, limit, s).positions[0] == s.positions[0]
    decreases limit - s.iterations
  {
    if DistanceToTarget(g, target, s.positions[|joints| - 1]) > tolerance && s.iterations < limit {
      RunKeepsRoot(g, joints, base, d, target, tolerance, limit, Iterate(g, joints, base, d, target, s));
    }
  }

  /** The sweep starts at the joint before the tip, so the tip's relative rotation is never
      changed. */
  lemma {:induction false} RunKeepsTipLocal(g: Ops, joints: seq<Joint>, base: Quaternion, d: seq<real>,
                                            target: Vector3, tolerance: real, limit: int, s: State)
    requires WellFormed(joints, d, s)
    ensures Run(g, joints, base, d, target, tolerance, limit, s).locals[|joints| - 1] == s.locals[|joints| - 1]
    decreases limit - s.iterations
  {
    if DistanceToTarget(g, target, s.positions[|joints| - 1]) > tolerance && s.iterations < limit {
      RunKeepsTipLocal(g, joints, base, d, target, tolerance, limit, Iterate(g, joints, base, d, target, s));
    }
  }

  /** After at least one iteration the chain is exactly the one its relative rotations and link
      lengths rebuild from the root. */
  lemma {:induction false} RunRebuilds(g: Ops, joints: seq<Joint>, base: Quaternion, d: seq<real>,
                                       target: Vector3, tolerance: real, limit: int, s: State)
    requires WellFormed(joints, d, s)
    requires DistanceToTarget(g, target, s.positions[|joints| - 1]) > tolerance && s.iterations < limit
    ensures var t := Run(g, joints, base, d, target, tolerance, limit, s);
            Rebuilt(g, base, t.locals, d, t.positions, t.rotations)
    decreases limit - s.iterations
  {
    var next := Iterate(g, joints, base, d, target, s);
    if DistanceToTarget(g, target, next.positions[|joints| - 1]) > tolerance && next.iterations < limit {
      RunRebuilds(g, joints, base, d, target, tolerance, limit, next);
    } else {
      assert Run(g, joints, base, d, target, tolerance, limit, s) == next;
    }
  }

  /** After at least one iteration every limited joint other than the tip, whose limits are
      consistent, has a relative rotation by an angle within its limits. */
  lemma {:induction false} RunWithinLimits(g: Ops, joints: seq<Joint>, base: Quaternion, d: seq<real>,
                                           target: Vector3, tolerance: real, limit: int, s: State, i: nat)
    requires WellFormed(joints, d, s)
    requires DistanceToTarget(g, target, s.positions[|joints| - 1]) > tolerance && s.iterations < limit
    requires i < |joints| - 1 && Limited(joints[i]) && Consistent(joints[i])
    ensures AngleLimited(g, joints[i], Run(g, joints, base, d, target, tolerance, limit, s).locals[i])
    decreases limit - s.iterations
  {
    var next := Iterate(g, joints, base, d, target, s);
    if DistanceToTarget(g, target, next.positions[|joints| - 1]) > tolerance && next.iterations < limit {
      RunWithinLimits(g, joints, base, d, target, tolerance, limit, next, i);
    } else {
      assert Run(g, joints, base, d, target, tolerance, limit, s) == next;
      var n := |joints|;
      SweepWithinLimits(g, joints, s.positions, s.rotations, target, s.locals, s.positions[n - 1], n - 1, i);
    }
  }

  /** MyCCDIKSolver, whose one setting is the distance below which the tip counts as arrived. */
  class CCDSolver {
    var tolerance: real

    constructor ()
      ensures tolerance == DefaultTolerance
    {
      tolerance := DefaultTolerance;
    }

    /** The backward sweep of one iteration over the working nodes, updating the relative
        rotations in place. */
    method SweepLocals(g: Ops, nodes: seq<CalcNode>, localRotations: array<Quaternion>,
                       targetPosition: Vector3)
      requires |nodes| >= 1 && localRotations.Length == |nodes|
      modifies localRotations
      ensures localRotations[..] ==
                Sweep(g, Joints(nodes), Positions(nodes), Rotations(nodes), targetPosition,
                      old(localRotations[..]), nodes[|nodes| - 1].position, |nodes| - 1).0
    {
      ghost var joints, p, r := Joints(nodes), Positions(nodes), Rotations(nodes);
      ghost var spec := Sweep(g, joints, p, r, targetPosition, localRotations[..],
                              nodes[|nodes| - 1].position, |nodes| - 1);
      var end := nodes[|nodes| - 1].position;
      var i := |nodes| - 2;
      while i >= 0
        invariant -1 <= i <= |nodes| - 2
        invariant spec == Sweep(g, joints, p, r, targetPosition, localRotations[..], end, i + 1)
        decreases i + 1
      {
        ghost var before, endBefore := localRotations[..], end;
        var targetVector := g.rotate(g.inverse(nodes[i].rotation), g.sub(targetPosition, nodes[i].position));
        var endVector := g.rotate(g.inverse(nodes[i].rotation), g.sub(end, nodes[i].position));
        var projectedToTarget := g.projectOnPlane(targetVector, nodes[i].axis);
        var projectedToEnd := g.projectOnPlane(endVector, nodes[i].axis);
        var diff := g.fromToRotation(projectedToEnd, projectedToTarget);
        localRotations[i] := g.mul(diff, localRotations[i]);
        localRotations[i] := ApplyRotationConstraint(g, nodes[i].AsJoint(), localRotations[i]);
        end := g.add(g.rotate(nodes[i].rotation, g.rotate(diff, endVector)), nodes[i].position);
        ghost var step := SweepStep(g, joints[i], p[i], r[i], targetPosition, before[i], endBefore);
        assert joints[i] == nodes[i].AsJoint() && p[i] == nodes[i].position && r[i] == nodes[i].rotation;
        assert step == (localRotations[i], end);
        assert localRotations[..] == before[i := step.0];
        i := i - 1;
      }
    }

    /** The rebuild of one iteration: root rotation base * l[0], then each node's rotation
        from its parent's new rotation and its position hung from its parent. */
    method RebuildChain(g: Ops, nodes: seq<CalcNode>, baseRotation: Quaternion,
                        localRotations: array<Quaternion>, distances: seq<real>)
      requires |nodes| >= 1 && Distinct(nodes)
      requires localRotations.Length == |nodes| && |distances| == |nodes| - 1
      modifies nodes
      ensures Rotations(nodes) == WorldRotations(g, baseRotation, localRotations[..])
      ensures Positions(nodes) == ChainPositions(g, baseRotation, localRotations[..], distances,
                                                 old(nodes[0].position))
    {
      ghost var l := localRotations[..];
      ghost var root := nodes[0].position;
      ghost var w := WorldRotations(g, baseRotation, l);
      ghost var p := ChainPositions(g, baseRotation, l, distances, root);
      nodes[0].rotation := g.mul(baseRotation, localRotations[0]);
      for i := 1 to |nodes|
        invariant forall k :: 0 <= k < i ==> nodes[k].rotation == w[k]
        invariant forall k :: 0 <= k < i ==> nodes[k].position == p[k]
      {
        RebuildRecurrence(g, baseRotation, l, distances, root, i);
        nodes[i].rotation := g.mul(nodes[i - 1].rotation, localRotations[i]);
        nodes[i].position := g.add(g.rotate(nodes[i - 1].rotation, g.scale(distances[i - 1], Up)),
                                   nodes[i - 1].position);
      }
      assert Rotations(nodes) == w;
      assert Positions(nodes) == p;
    }

    /** The relative rotations SolveIK starts from, in a fresh array. */
    method InitialLocals(g: Ops, nodes: seq<CalcNode>, baseRotation: Quaternion)
      returns (localRotations: array<Quaternion>)
      requires |nodes| >= 1
      ensures fresh(localRotations) && localRotations.Length == |nodes|
      ensures localRotations[..] == LocalRotations(g, baseRotation, Rotations(nodes))
    {
      localRotations := new Quaternion[|nodes|];
      localRotations[0] := g.mul(g.inverse(baseRotation), nodes[0].rotation);
      for i := 1 to |nodes|
        invariant localRotations[0] == g.mul(g.inverse(baseRotation), nodes[0].rotation)
        invariant forall k :: 1 <= k < i ==>
                    localRotations[k] == g.mul(g.inverse(nodes[k - 1].rotation), nodes[k].rotation)
      {
        localRotations[i] := g.mul(g.inverse(nodes[i - 1].rotation), nodes[i].rotation);
      }
    }

    /** One iteration of the main loop on the working nodes and the relative rotations. */
    method Iteration(g: Ops, nodes: seq<CalcNode>, baseRotation: Quaternion, targetPosition: Vector3,
                     localRotations: array<Quaternion>, distances: seq<real>, ghost iterations: int)
      requires |nodes| >= 1 && Distinct(nodes)
      requires localRotations.Length == |nodes| && |distances| == |nodes| - 1
      modifies nodes, localRotations
      ensures State(Positions(nodes), Rotations(nodes), localRotations[..], iterations + 1) ==
              Iterate(g, Joints(nodes), baseRotation, distances, targetPosition,
                      State(old(Positions(nodes)), old(Rotations(nodes)), old(localRotations[..]), iterations))
    {
      ghost var n, s := |nodes|, State(Positions(nodes), Rotations(nodes), localRotations[..], iterations);
      ghost var l := Sweep(g, Joints(nodes), s.positions, s.rotations, targetPosition, s.locals,
                           s.positions[n - 1], n - 1).0;
      SweepLocals(g, nodes, localRotations, targetPosition);
      assert Positions(nodes) == s.positions && Rotations(nodes) == s.rotations;
      assert localRotations[..] == l;
      RebuildChain(g, nodes, baseRotation, localRotations, distances);
      assert Rotations(nodes) == WorldRotations(g, baseRotation, l);
      assert Positions(nodes) == ChainPositions(g, baseRotation, l, distances, s.positions[0]);
      IterateUnfold(g, Joints(nodes), baseRotation, distances, targetPosition, s);
    }

    /** SolveIK on the working copies: the result and the final nodes are those of Run from the
        initial chain. */
    method SolveIK(g: Ops, nodes: seq<CalcNode>, baseRotation: Quaternion, targetPosition: Vector3,
                   targetRotation: Option<Quaternion>, iterationLimit: int)
      returns (localRotations: array<Quaternion>)
      requires |nodes| >= 1 && Distinct(nodes)
      modifies nodes
      ensures fresh(localRotations) && localRotations.Length == |nodes|
      ensures var t := Run(g, Joints(nodes), baseRotation, LinkLengths(g, old(Positions(nodes))),
                           targetPosition, tolerance, iterationLimit,
                           Initial(g, baseRotation, old(Positions(nodes)), old(Rotations(nodes))));
              localRotations[..] == t.locals && Positions(nodes) == t.positions &&
              Rotations(nodes) == t.rotations
    {
      var n := |nodes|;
      var iterations := 0;
      var distanceToTarget := DistanceToTarget(g, targetPosition, nodes[n - 1].position);
      localRotations := InitialLocals(g, nodes, baseRotation);
      var distances := LinkLengths(g, Positions(nodes));
      ghost var joints := Joints(nodes);
      ghost var spec := Run(g, joints, baseRotation, distances, targetPosition, tolerance, iterationLimit,
                            State(Positions(nodes), Rotations(nodes), localRotations[..], iterations));
      while distanceToTarget > tolerance && iterations < iterationLimit
        invariant fresh(localRotations) && localRotations.Length == n
        invariant distanceToTarget == DistanceToTarget(g, targetPosition, nodes[n - 1].position)
        invariant spec == Run(g, joints, baseRotation, distances, targetPosition, tolerance, iterationLimit,
                              State(Positions(nodes), Rotations(nodes), localRotations[..], iterations))
        decreases iterationLimit - iterations
      {
        Iteration(g, nodes, baseRotation, targetPosition, localRotations, distances, iterations);
        distanceToTarget := DistanceToTarget(g, targetPosition, nodes[n - 1].position);
        iterations := iterations + 1;
      }
    }

    /** Solve: copy each joint's transform position and rotation into a fresh working node,
        and run SolveIK from the root parent's rotation. The target rotation is accepted and
        not used. */
    method Solve(g: Ops, nodes: seq<IKNode>, targetPosition: Vector3, targetRotation: Option<Quaternion>,
                 iterationLimit: int)
      returns (localRotations: array<Quaternion>)
      requires |nodes| >= 1
      ensures fresh(localRotations) && localRotations.Length == |nodes|
      ensures localRotations[..] ==
                Run(g, Configs(nodes), BaseRotation(nodes[0]), LinkLengths(g, TransformPositions(nodes)),
                    targetPosition, tolerance, iterationLimit,
                    Initial(g, BaseRotation(nodes[0]), TransformPositions(nodes), TransformRotations(nodes))).locals
    {
      var copies := WorkingCopies(nodes);
      localRotations := SolveIK(g, copies, BaseRotation(nodes[0]), targetPosition, targetRotation, iterationLimit);
    }
  }
}
