/** The damped-least-squares solver (MyJacobianSolver.Solve): one scalar angle per joint about
    the joint's fixed axis, updated by a damped step and clamped through the joint's AngleRange
    each iteration. The linear algebra that produces the error and the step (forward kinematics,
    the Jacobian columns, the matrix products and the pseudo-inverse) is not part of this model
    and is supplied as the opaque functions of `Numerics`; what is modelled is the weighting of
    the error, the early exit, the damping, the per-joint ranges, the in-place angle update and
    the shape of the result. */
module Jacobian {
  import opened UnityMath
  import opened Wrappers
  import opened IKNodes
  import opened AngleRanges

  /** Mathf.PI, the float nearest to pi. */
  const Pi: real := 3.1415927410125732421875

  /** The solver's `epsilon` field default. */
  const DefaultEpsilon: real := 0.000000000001

  /** The constant added to the error to obtain the damping factor lambda. */
  const DampingOffset: real := 0.002

  /** The opaque numerical steps of one iteration, as functions of the current angles. */
  datatype Numerics = Numerics(
    positionError: seq<real> -> Vector3,                 // targetPosition - end-effector position
    rotationError: (seq<real>, Quaternion) -> Vector3,   // world rotation vector to the target rotation
    deltaAngle: (seq<real>, Option<Quaternion>, real, nat) -> real)
                                                         // dAngle[i, 0] (radians) for these angles,
                                                         // the target rotation (if any) and lambda

  /** Diagonal of the error weight matrix `we`: 1 / 0.3 on the three position rows,
      0.5 / pi on the three rotation rows. */
  function ErrorWeight(row: nat): (w: real)
    ensures w > 0.0
    ensures row < 3 ==> w > 3.0
    ensures row >= 3 ==> w < 0.2
  {
    if row < 3 then 1.0 / 0.3 else 0.5 / Pi
  }

  /** The 6-row error column: position error, then the rotation error when a target rotation
      is given and zero otherwise. */
  function ErrorVector(num: Numerics, targetRotation: Option<Quaternion>, angles: seq<real>): (e: seq<real>)
    ensures |e| == 6
    ensures targetRotation == None ==> e[3] == e[4] == e[5] == 0.0
    ensures targetRotation.Some? ==>
              var q := num.rotationError(angles, targetRotation.value); e[3] == q.x && e[4] == q.y && e[5] == q.z
    ensures var p := num.positionError(angles); e[0] == p.x && e[1] == p.y && e[2] == p.z
  {
    var p := num.positionError(angles);
    var r := if targetRotation.Some? then num.rotationError(angles, targetRotation.value)
             else Vector3(0.0, 0.0, 0.0);
    [p.x, p.y, p.z, r.x, r.y, r.z]
  }

  /** Sum over the first k rows of weight * error^2. */
  function WeightedSum(e: seq<real>, k: nat): (s: real)
    requires k <= |e|
    ensures s >= 0.0
    ensures s > 0.0 <==> exists i :: 0 <= i < k && e[i] != 0.0
  {
    if k == 0 then 0.0 else WeightedSum(e, k - 1) + WeightedSquare(e, k - 1)
  }

  /** One row's contribution, weight * error^2: never negative, positive exactly when the
      row's error is not zero. */
  function WeightedSquare(e: seq<real>, row: nat): (t: real)
    requires row < |e|
    ensures t >= 0.0
    ensures t > 0.0 <==> e[row] != 0.0
  {
    var w, x := ErrorWeight(row), e[row];
    SquareSign(x);
    if x == 0.0 then Mul(w, Mul(x, x))
    else MulPositive(w, Mul(x, x)); Mul(w, Mul(x, x))
  }

  /** Real multiplication, named so that facts about a product are stated on one term. */
  function Mul(a: real, b: real): real { a * b }

  lemma MulPositive(a: real, b: real)
    requires a > 0.0 && b > 0.0
    ensures Mul(a, b) > 0.0
  {
  }

  /** A square is never negative and is zero only for zero. */
  lemma SquareSign(x: real)
    ensures Mul(x, x) >= 0.0
    ensures Mul(x, x) > 0.0 <==> x != 0.0
  {
    if x < 0.0 {
      assert Mul(x, x) == Mul(-x, -x);
      MulPositive(-x, -x);
    } else if x > 0.0 {
      MulPositive(x, x);
    }
  }

  /** ek = errᵀ · we · err. It is never negative and is zero exactly when the error is zero. */
  function WeightedError(e: seq<real>): (ek: real)
    requires |e| == 6
    ensures ek >= 0.0
    ensures ek == 0.0 <==> forall i :: 0 <= i < 6 ==> e[i] == 0.0
  {
    WeightedSum(e, 6)
  }

  /** The range a joint's angle is clamped to: its enabled limits, -180 / 180 otherwise. */
  function JointRange(node: IKNode): (r: AngleRange)
    ensures !node.useRotationMin && !node.useRotationMax ==> r == AngleRange(-180.0, 360.0)
    ensures r.range == (if node.useRotationMax then node.rotationMax else 180.0)
                       - (if node.useRotationMin then node.rotationMin else -180.0)
    ensures -180.0 <= r.base < 180.0
    ensures node.useRotationMin ==> IsWhole((node.rotationMin - r.base) / 360.0)
    ensures !node.useRotationMin ==> r.base == -180.0
  {
    var ar := FromLimits(if node.useRotationMin then node.rotationMin else -180.0,
                         if node.useRotationMax then node.rotationMax else 180.0);
    NormalizeCanonical(-180.0);
    ar
  }

  /** The ranges of all joints, in joint order. */
  function JointRanges(nodes: seq<IKNode>): (rs: seq<AngleRange>)
    ensures |rs| == |nodes|
    ensures forall i :: 0 <= i < |nodes| ==> rs[i] == JointRange(nodes[i])
  {
    seq(|nodes|, i requires 0 <= i < |nodes| => JointRange(nodes[i]))
  }

  /** One joint's update: angle + dAngle * 180 / pi (the step is in radians), clamped by the
      joint's range. */
  function UpdatedAngle(range: AngleRange, angle: real, dAngle: real): (a: real)
    ensures range.range >= 0.0 ==> range.base <= a <= range.base + range.range
    ensures range.range >= 0.0 && -180.0 <= range.base < 180.0 ==> -180.0 <= a < 180.0
  {
    range.Check(angle + dAngle * 180.0 / Pi)
  }

  /** One update of all angles, joint by joint. */
  function UpdateAngles(ranges: seq<AngleRange>, angles: seq<real>, dAngle: seq<real>): (next: seq<real>)
    requires |ranges| == |angles| == |dAngle|
    ensures |next| == |angles|
    ensures forall i :: 0 <= i < |angles| && ranges[i].range >= 0.0 ==>
              ranges[i].base <= next[i] <= ranges[i].base + ranges[i].range
  {
    seq(|angles|, i requires 0 <= i < |angles| => UpdatedAngle(ranges[i], angles[i], dAngle[i]))
  }

  /** The step column dAngle for the given angles and damping. */
  function Step(num: Numerics, targetRotation: Option<Quaternion>, angles: seq<real>, lambda: real): (d: seq<real>)
    ensures |d| == |angles|
  {
    seq(|angles|, i requires 0 <= i < |angles| => num.deltaAngle(angles, targetRotation, lambda, i))
  }

  /** The loop's exit test: the weighted error ek is below epsilon. Since ek is never
      negative, a non-positive epsilon never stops the loop early, and an exact hit without a
      target rotation stops it for any positive epsilon. */
  function Converged(num: Numerics, targetRotation: Option<Quaternion>, epsilon: real, angles: seq<real>): (c: bool)
    ensures epsilon <= 0.0 ==> !c
    ensures epsilon > 0.0 && targetRotation == None && num.positionError(angles) == Vector3(0.0, 0.0, 0.0) ==> c
  {
    var e := ErrorVector(num, targetRotation, angles);
    assert targetRotation == None && num.positionError(angles) == Vector3(0.0, 0.0, 0.0) ==>
             forall i :: 0 <= i < 6 ==> e[i] == 0.0;
    WeightedError(e) < epsilon
  }

  /** The angles after one update, with dAngle computed at damping lambda = ek + 0.002. */
  function Next(num: Numerics, ranges: seq<AngleRange>, targetRotation: Option<Quaternion>,
                angles: seq<real>): (next: seq<real>)
    requires |ranges| == |angles|
    ensures |next| == |angles|
  {
    var ek := WeightedError(ErrorVector(num, targetRotation, angles));
    UpdateAngles(ranges, angles, Step(num, targetRotation, angles, ek + DampingOffset))
  }

  /** The iteration loop from iteration `iteration` on: stop at the limit or when ek < epsilon,
      otherwise update and continue. */
  function SolveAngles(num: Numerics, ranges: seq<AngleRange>, targetRotation: Option<Quaternion>,
                       epsilon: real, angles: seq<real>, iteration: int, iterationLimit: int): (res: seq<real>)
    requires |ranges| == |angles|
    ensures |res| == |angles|
    decreases iterationLimit - iteration
  {
    if iteration >= iterationLimit || Converged(num, targetRotation, epsilon, angles) then angles
    else SolveAngles(num, ranges, targetRotation, epsilon, Next(num, ranges, targetRotation, angles),
                     iteration + 1, iterationLimit)
  }

  /** The damping factor is always positive, since ek is never negative. */
  lemma DampingPositive(num: Numerics, targetRotation: Option<Quaternion>, angles: seq<real>)
    ensures WeightedError(ErrorVector(num, targetRotation, angles)) + DampingOffset > 0.0
  {
  }

  /** The loop never runs for a non-positive limit, and stops at once when the starting error
      is already below epsilon: the starting angles come back unchanged. */
  lemma NoIterationKeepsAngles(num: Numerics, ranges: seq<AngleRange>, targetRotation: Option<Quaternion>,
                               epsilon: real, angles: seq<real>, iterationLimit: int)
    requires |ranges| == |angles|
    requires iterationLimit <= 0 || WeightedError(ErrorVector(num, targetRotation, angles)) < epsilon
    ensures SolveAngles(num, ranges, targetRotation, epsilon, angles, 0, iterationLimit) == angles
  {
  }

  /** A zero error is below any positive epsilon, so an exact hit stops the loop. */
  lemma ExactHitStops(num: Numerics, ranges: seq<AngleRange>, targetRotation: Option<Quaternion>,
                      epsilon: real, angles: seq<real>, iterationLimit: int)
    requires |ranges| == |angles| && epsilon > 0.0
    requires num.positionError(angles) == Vector3(0.0, 0.0, 0.0)
    requires targetRotation == None
    ensures SolveAngles(num, ranges, targetRotation, epsilon, angles, 0, iterationLimit) == angles
  {
    var e := ErrorVector(num, targetRotation, angles);
    assert forall i :: 0 <= i < 6 ==> e[i] == 0.0;
  }

  /** Once at least one update has happened, every angle lies in its joint's range and in
      [-180, 180), provided the joint's limits are not inverted. */
  lemma {:induction false} SolvedAnglesInRange(num: Numerics, nodes: seq<IKNode>, targetRotation: Option<Quaternion>,
                                               epsilon: real, angles: seq<real>, iteration: int,
                                               iterationLimit: int, i: nat)
    requires |nodes| == |angles| && i < |nodes|
    requires iteration < iterationLimit && !Converged(num, targetRotation, epsilon, angles)
    requires JointRange(nodes[i]).range >= 0.0
    decreases iterationLimit - iteration
    ensures var res := SolveAngles(num, JointRanges(nodes), targetRotation, epsilon, angles, iteration, iterationLimit);
            var ar := JointRange(nodes[i]);
            ar.base <= res[i] <= ar.base + ar.range && -180.0 <= res[i] < 180.0
  {
    var ranges := JointRanges(nodes);
    var next := Next(num, ranges, targetRotation, angles);
    if iteration + 1 < iterationLimit && !Converged(num, targetRotation, epsilon, next) {
      SolvedAnglesInRange(num, nodes, targetRotation, epsilon, next, iteration + 1, iterationLimit, i);
    } else {
      assert SolveAngles(num, ranges, targetRotation, epsilon, angles, iteration, iterationLimit) == next;
    }
  }

  /** A joint with neither limit flag only ever has its angle wrapped into [-180, 180): after an
      update its new angle is the normalised sum of old angle and step. */
  lemma UnlimitedJointOnlyNormalizes(ranges: seq<AngleRange>, nodes: seq<IKNode>, angles: seq<real>,
                                     dAngle: seq<real>, i: nat)
    requires ranges == JointRanges(nodes)
    requires |nodes| == |angles| == |dAngle| && i < |nodes|
    requires !nodes[i].useRotationMin && !nodes[i].useRotationMax
    ensures UpdateAngles(ranges, angles, dAngle)[i] == Normalize(angles[i] + dAngle[i] * 180.0 / Pi)
  {
    UnlimitedCheckNormalizes(angles[i] + dAngle[i] * 180.0 / Pi);
  }

  /** The result: AngleAxis(angles[i], axis[i]) per node, in node order. */
  function AxisRotations(g: Ops, nodes: seq<IKNode>, angles: seq<real>): (rs: seq<Quaternion>)
    requires |angles| == |nodes|
    ensures |rs| == |nodes|
    ensures forall i :: 0 <= i < |nodes| ==> rs[i] == g.angleAxis(angles[i], nodes[i].axis)
  {
    if |nodes| == 0 then []
    else AxisRotations(g, nodes[..|nodes| - 1], angles[..|nodes| - 1])
         + [g.angleAxis(angles[|nodes| - 1], nodes[|nodes| - 1].axis)]
  }

  /** The update loop of one iteration: angles[index] is overwritten, in index order, with
      its range's Check of angles[index] + dAngle[index] * 180 / pi. */
  method UpdateInPlace(angles: array<real>, ranges: seq<AngleRange>, dAngle: seq<real>)
    requires angles.Length == |ranges| == |dAngle|
    modifies angles
    ensures angles[..] == UpdateAngles(ranges, old(angles[..]), dAngle)
  {
    ghost var current := angles[..];
    for index := 0 to angles.Length
      invariant forall k :: 0 <= k < index ==> angles[k] == UpdatedAngle(ranges[k], current[k], dAngle[k])
      invariant forall k :: index <= k < angles.Length ==> angles[k] == current[k]
    {
      angles[index] := ranges[index].Check(angles[index] + dAngle[index] * 180.0 / Pi);
    }
  }

  /** MyJacobianSolver, whose one setting is the error below which the loop stops. */
  class JacobianSolver {
    var epsilon: real

    constructor ()
      ensures epsilon == DefaultEpsilon
    {
      epsilon := DefaultEpsilon;
    }

    /** One pass of the loop body: compute ek; when it is below epsilon report that the loop
        is done and change nothing, otherwise update every angle in place at damping
        ek + 0.002. */
    method Iteration(num: Numerics, angles: array<real>, angleRanges: seq<AngleRange>,
                     targetRotation: Option<Quaternion>) returns (done: bool)
      requires angles.Length == |angleRanges|
      modifies angles
      ensures done == Converged(num, targetRotation, epsilon, old(angles[..]))
      ensures done ==> angles[..] == old(angles[..])
      ensures !done ==> angles[..] == Next(num, angleRanges, targetRotation, old(angles[..]))
    {
      var ek := WeightedError(ErrorVector(num, targetRotation, angles[..]));
      if ek < epsilon {
        return true;
      }
      var currentEk := ek;
      var lambda := currentEk + DampingOffset;
      var dAngle := Step(num, targetRotation, angles[..], lambda);
      UpdateInPlace(angles, angleRanges, dAngle);
      return false;
    }

    /** The iteration loop on the angle array, up to iterationLimit passes. */
    method MainLoop(num: Numerics, angles: array<real>, angleRanges: seq<AngleRange>,
                    targetRotation: Option<Quaternion>, iterationLimit: int)
      requires angles.Length == |angleRanges|
      modifies angles
      ensures angles[..] == SolveAngles(num, angleRanges, targetRotation, epsilon, old(angles[..]), 0, iterationLimit)
    {
      ghost var spec := SolveAngles(num, angleRanges, targetRotation, epsilon, angles[..], 0, iterationLimit);
      var iteration := 0;
      while iteration < iterationLimit
        invariant spec == SolveAngles(num, angleRanges, targetRotation, epsilon, angles[..], iteration, iterationLimit)
        decreases iterationLimit - iteration
      {
        var done := Iteration(num, angles, angleRanges, targetRotation);
        if done {
          break;
        }
        iteration := iteration + 1;
      }
    }

    /** MyJacobianSolver.Solve from the initial angles on (GetInitial, which reads them from the
        scene, is not part of this model). Each iteration computes ek, leaves the loop when
        ek < epsilon, and otherwise overwrites every angles[i] in place with joint i's Check of
        angles[i] + dAngle[i] * 180 / pi, with dAngle computed at damping ek + 0.002. The
        result holds AngleAxis(angles[i], axis[i]) per node, in node order. */
    method Solve(g: Ops, num: Numerics, nodes: seq<IKNode>, initialAngles: seq<real>,
                 targetRotation: Option<Quaternion>, iterationLimit: int)
      returns (rotations: seq<Quaternion>)
      requires |initialAngles| == |nodes|
      requires |nodes| >= 1 || iterationLimit <= 0
      ensures rotations == AxisRotations(g, nodes, SolveAngles(num, JointRanges(nodes), targetRotation,
                                                               epsilon, initialAngles, 0, iterationLimit))
    {
      var length := |nodes|;
      var angleRanges := JointRanges(nodes);
      var angles := new real[length](i requires 0 <= i < length => initialAngles[i]);
      assert angles[..] == initialAngles;
      MainLoop(num, angles, angleRanges, targetRotation, iterationLimit);
      rotations := AxisRotations(g, nodes, angles[..]);
    }
  }
}
