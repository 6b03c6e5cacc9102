# my-ik solvers in Dafny

This project models the three inverse-kinematics solvers of the Unity project my-ik. Each
solver turns an ordered chain of joints (`IKNode`: a transform, a rotation axis, optional
minimum/maximum angles in degrees) so that the chain's tip approaches a target position.

- **Jacobian (damped least squares), `MyJacobianSolver`.** One scalar angle per joint. Each
  iteration:
  - weighs the 6-row error into `ek`;
  - stops when `ek < epsilon`;
  - otherwise takes a damped step with `lambda = ek + 0.002`;
  - clamps every angle through the joint's `AngleRange`.

  The result is one `AngleAxis(angle, axis)` per joint.
- **`AngleRange`.** Stores a lower bound wrapped into [-180, 180) and a width. `Check` wraps
  its argument the same way. It keeps the argument when it lies inside the interval, and
  otherwise returns the linearly nearer bound.
- **CCD, `MyCCDIKSolver`.** Each iteration sweeps the joints from the one before the tip down
  to the root. Each joint is turned towards the target in the plane normal to its axis, and
  its relative rotation is clamped by `ApplyRotationConstraint`. The iteration then rebuilds
  world rotations and positions from the root, using the fixed link lengths and `Vector3.up`.
- **FABRIK, `MyFABRIKSolver`.** Each iteration:
  - pins the tip to the target and drags the chain back;
  - pins the root to its initial position and drags the chain forward;
  - aims every node but the tip along its link;
  - derives the parent-relative rotations;
  - re-hangs the positions from those rotations.

  The relative rotations are written into the joints' transforms.

Modules:
- `UnityMath`: `Vector3` and `Quaternion`, and the record `Ops` of engine operations.
- `IKNodes`: `IKNode`, the working copy `CalcNode`, and `Transform`.
- `Chains`: link lengths, relative rotations and the rebuild of a chain from them.
- `AngleRanges`, `Jacobian`, `CCD`, `FABRIK`.

Every engine operation on vectors and rotations is a field of `Ops` and is never interpreted:
`+`, `-`, scaling, `*`, `magnitude`, `normalized`, `Inverse`, `FromToRotation`,
`ProjectOnPlane`, `ToAngleAxis` and `AngleAxis`. So every equation proved about CCD and FABRIK
holds for any implementation of them. The proofs cover which entries are written, in which
order, with which formula, and which entries stay untouched.

The constants are exact values:
- `Vector3.up`;
- `Quaternion.identity`;
- the all-zero `default(Quaternion)`, which is what a fresh `Quaternion[]` slot holds.

The working copies (`IKNodeForCalculation`) are objects whose `position` and `rotation` the
solvers update in place. Each loop that updates the nodes, the result array or the angle array
in place is a Dafny method:
- the CCD sweep, rebuild and relative-rotation loops;
- the FABRIK forward, backward, aiming, relative-rotation, feedback and write-back loops;
- the Jacobian angle update and main loop.

Each such method but one is proved to leave the state a specification function gives of the
old state, and the promised properties are proved about those functions as lemmas:
- CCD: `SweepLocals` gives `Sweep`, `RebuildChain` gives `WorldRotations` and
  `ChainPositions`, `InitialLocals` gives `LocalRotations`, `Iteration` gives `Iterate`, and
  `SolveIK` gives `Run`;
- FABRIK: `Forward` gives `ForwardPass`, `Backward` gives `BackwardPass`, `AimAll` gives
  `Aim`, `StoreLocals` gives `LocalRotations`, `Feedback` gives `ChainPositions`,
  `Iteration` gives `Iterate`, and `MainLoop` gives `Run`;
- Jacobian: `UpdateInPlace` gives `UpdateAngles`, `Iteration` gives `Next` (or stops at
  `Converged`), and `MainLoop` gives `SolveAngles`.

`Sweep`, `Run` and `SolveAngles` are recursive; the others are sequence comprehensions. The
exception is FABRIK's `WriteBack`: it states that each transform ends up holding the relative
rotation of the last joint that writes to it, and that no transform's parent changes.

The loops that only compute values are not methods:
- the angles that `GetInitial`'s loop (MyJacobianSolver.cs:20-34) reads are a parameter of
  `Jacobian.JacobianSolver.Solve`;
- forward kinematics and the Jacobian columns (MyJacobianSolver.cs:112-122, 131-143) are
  absorbed into the three functions of `Numerics` (see "## Left out");
- the link lengths, computed with `Select`, are the function `Chains.LinkLengths`.

Behaviour of the code that the model keeps as written:
- **`AngleRange.Check` wrap-around.** The comment at MyJacobianSolver.cs:73 says Check fits
  an angle to the nearest range. The code compares plain linear distances.
  - For limits 170..190, the input 190 comes back as 170 (`WrappedUpperLimitClampedToLower`).
  - For limits -170..-150, the input 175 goes to -150, although -170 is nearer across ±180
    (`NearestBoundIsLinear`).
  - With inverted limits, `Check` is not idempotent (`InvertedLimitsNotIdempotent`).
    Idempotence is proved where it holds, for min <= max (`CheckIdempotent`).
- **CCD clamping.** CCD does not use `AngleRange`. It clamps the `ToAngleAxis` angle with
  `Mathf.Max`/`Mathf.Min` (`ConstrainedAngle`), with no wrapping and no nearest-bound choice.
- **Link direction.** Both CCD and FABRIK hang every link along `Vector3.up`.
- **FABRIK when the loop never runs.** The result array holds all-zero quaternions, not
  identities (`FABRIK.RunIdle`). The tip's rotation is never re-aimed
  (`FABRIK.RunKeepsTipRotation`).

## Model

| member | source | states |
|---|---|---|
| `AngleRanges.Repeat` | Assets/Scripts/MyJacobianSolver.cs:66 | The result lies in [0, length) and differs from t by a whole number of lengths (Mathf.Repeat). |
| `AngleRanges.Normalize` | Assets/Scripts/MyJacobianSolver.cs:66 | `Repeat(d + 180, 360) - 180` lies in [-180, 180) and differs from d by whole turns. |
| `AngleRanges.NormalizeUnique` | Assets/Scripts/MyJacobianSolver.cs:71 | Any value in [-180, 180) that differs from d by whole turns IS the normalised angle. |
| `AngleRanges.NormalizeCanonical` | Assets/Scripts/MyJacobianSolver.cs:71 | An angle already in [-180, 180) is not changed by normalisation. |
| `AngleRanges.NormalizePeriodic` | Assets/Scripts/MyJacobianSolver.cs:71 | Adding whole turns does not change the normalised angle. |
| `AngleRanges.FromLimits` | Assets/Scripts/MyJacobianSolver.cs:63-67 | The constructor stores `range = max - min` and a base in [-180, 180) that equals min modulo 360. |
| `AngleRanges.AngleRange.Check` | Assets/Scripts/MyJacobianSolver.cs:69-89 | When the normalised input n is in [base, base+range], Check returns n. Otherwise it returns base+range if that is strictly nearer linearly, else base (a tie goes to base). For range >= 0 the result lies in [base, base+range], and also in [-180, 180) when base does. |
| `AngleRanges.CheckIsClamp` | Assets/Scripts/MyJacobianSolver.cs:72-83 | For range >= 0, Check equals clamp(normalised input, base, base+range). |
| `AngleRanges.CheckPeriodic` | Assets/Scripts/MyJacobianSolver.cs:71 | Only the normalised input matters: whole turns added to it change nothing. |
| `AngleRanges.CheckIdempotent` | Assets/Scripts/MyJacobianSolver.cs:63-89 | For limits min <= max, a second Check leaves the first one's result unchanged. |
| `AngleRanges.UnlimitedCheckNormalizes` | Assets/Scripts/MyJacobianSolver.cs:95-96 | The default range (-180, 180) is `AngleRange(-180, 360)`, and its Check is pure normalisation. |
| `AngleRanges.WrappedUpperLimitClampedToLower` | Assets/Scripts/MyJacobianSolver.cs:71-83 | With limits 170..190, Check(190) returns 170: there is no wrap-around. |
| `AngleRanges.NearestBoundIsLinear` | Assets/Scripts/MyJacobianSolver.cs:75-82 | With limits -170..-150, Check(175) returns -150: the nearer bound is chosen by linear, not angular, distance. |
| `AngleRanges.InvertedLimitsNotIdempotent` | Assets/Scripts/MyJacobianSolver.cs:63-89 | With limits -100..-200, Check(-170) = -200 and Check(-200) = -100, so Check is not idempotent. |
| `Jacobian.ErrorWeight` | Assets/Scripts/MyJacobianSolver.cs:98 | The diagonal weight is positive: above 3 (1/0.3) on the position rows, below 0.2 (0.5/pi) on the rotation rows. |
| `Jacobian.ErrorVector` | Assets/Scripts/MyJacobianSolver.cs:127-130 | The error has 6 rows: the position error in rows 0-2. Rows 3-5 are zeros when there is no target rotation, and otherwise the x, y, z of the rotation error towards the target rotation. |
| `Jacobian.WeightedSquare` | Assets/Scripts/MyJacobianSolver.cs:155 | A row's weight * error^2 is never negative, and is positive exactly when that row's error is non-zero. |
| `Jacobian.WeightedSum` | Assets/Scripts/MyJacobianSolver.cs:155 | The weighted sum of the first k rows is never negative, and is positive exactly when one of those rows is non-zero. |
| `Jacobian.WeightedError` | Assets/Scripts/MyJacobianSolver.cs:155 | `ek` is never negative, and is zero exactly when all six error rows are zero. |
| `Jacobian.DampingPositive` | Assets/Scripts/MyJacobianSolver.cs:159 | The damping `lambda = ek + 0.002` is positive. |
| `Jacobian.JointRange` | Assets/Scripts/MyJacobianSolver.cs:95-96 | The range is that of lower bound `useRotationMin ? rotationMin : -180` and upper bound `useRotationMax ? rotationMax : 180`: its width is upper minus lower, its base is in [-180, 180) and equals the lower bound modulo 360 (exactly -180 without the min flag). A joint without flags gets `AngleRange(-180, 360)`. |
| `Jacobian.JointRanges` | Assets/Scripts/MyJacobianSolver.cs:95-96 | There is one range per node, and range i is `JointRange` of node i. |
| `Jacobian.UpdatedAngle` | Assets/Scripts/MyJacobianSolver.cs:165-167 | For a non-negative width, the updated angle lies in [base, base+range], and also in [-180, 180) when the base does. |
| `Jacobian.UpdateAngles` | Assets/Scripts/MyJacobianSolver.cs:163-168 | There is one updated angle per joint, and each joint with a non-negative width has its angle in [base, base+range]. |
| `Jacobian.Step` | Assets/Scripts/MyJacobianSolver.cs:159-162 | There is one step entry per joint. |
| `Jacobian.Converged` | Assets/Scripts/MyJacobianSolver.cs:155-156 | A non-positive epsilon never stops the loop; with a positive epsilon, zero position error and no target rotation it stops. |
| `Jacobian.SolveAngles` | Assets/Scripts/MyJacobianSolver.cs:103-169 | The iteration loop keeps one angle per joint. |
| `Jacobian.NoIterationKeepsAngles` | Assets/Scripts/MyJacobianSolver.cs:103-156 | With a non-positive limit, or an initial ek below epsilon, the angles come back unchanged. |
| `Jacobian.ExactHitStops` | Assets/Scripts/MyJacobianSolver.cs:127-156 | With zero position error, no target rotation and epsilon > 0, the loop stops at once. |
| `Jacobian.SolvedAnglesInRange` | Assets/Scripts/MyJacobianSolver.cs:163-168 | After at least one update, every joint whose range is non-negative has its angle in [base, base+range] and in [-180, 180). |
| `Jacobian.UnlimitedJointOnlyNormalizes` | Assets/Scripts/MyJacobianSolver.cs:163-168 | For a joint without flags, the update is the normalisation of angle + dAngle * 180 / pi. |
| `Jacobian.AxisRotations` | Assets/Scripts/MyJacobianSolver.cs:171 | The result holds `AngleAxis(angles[i], axis[i])` for every node, in node order. |
| `Jacobian.UpdateInPlace` | Assets/Scripts/MyJacobianSolver.cs:163-168 | After the update loop, every `angles[i]` is joint i's Check of angles[i] + dAngle[i] * 180 / pi, and nothing else changes. |
| `Jacobian.JacobianSolver.constructor` | Assets/Scripts/MyJacobianSolver.cs:9 | `epsilon` starts at 1e-12. |
| `Jacobian.Next` | Assets/Scripts/MyJacobianSolver.cs:155-168 | One update, at damping ek + 0.002, keeps one angle per joint. |
| `Jacobian.JacobianSolver.Iteration` | Assets/Scripts/MyJacobianSolver.cs:155-168 | One pass of the loop body reports done exactly when ek < epsilon, and then changes no angle. Otherwise it leaves the angle array equal to `Next` of the old angles. |
| `Jacobian.JacobianSolver.MainLoop` | Assets/Scripts/MyJacobianSolver.cs:103-169 | The while loop over the angle array ends with exactly the angles `SolveAngles` computes from the old ones. |
| `Jacobian.JacobianSolver.Solve` | Assets/Scripts/MyJacobianSolver.cs:92-172 | The method returns the AngleAxis rotations of exactly the angles the iteration loop `SolveAngles` computes from the initial angles. |
| `Chains.LinkLengths` | Assets/Scripts/MyCCDIKSolver.cs:37-38 | There is one distance per link, n - 1 in all. |
| `Chains.LocalRotations` | Assets/Scripts/MyCCDIKSolver.cs:36-43 | There is one parent-relative rotation per node. |
| `Chains.WorldRotations` | Assets/Scripts/MyCCDIKSolver.cs:65 | There is one world rotation per node, and the root's is base * l[0]. |
| `Chains.ChainPositions` | Assets/Scripts/MyCCDIKSolver.cs:66-71 | The rebuilt chain has one position per node and starts at the root position it is given. |
| `Chains.RebuildRecurrence` | Assets/Scripts/MyCCDIKSolver.cs:66-71 | For every node i >= 1 of the rebuilt chain: world rotation i = world rotation i-1 * l[i], and position i = world rotation i-1 applied to d[i-1] * up, plus position i-1. |
| `IKNodes.BaseRotation` | Assets/Scripts/MyCCDIKSolver.cs:24 | The base is the root's parent's rotation, or `Quaternion.identity` when the root has no parent. |
| `UnityMath.DistanceToTarget` | Assets/Scripts/MyCCDIKSolver.cs:34 | No contract of its own: `(target - p).magnitude` is its defining formula over the engine operations. |
| `IKNodes.CalcNode.constructor` | Assets/Scripts/IKObjectNode.cs:14-23 | A working copy holds the given position, rotation and joint configuration. |
| `IKNodes.WorkingCopies` | Assets/Scripts/MyCCDIKSolver.cs:12-23 | The method makes one fresh, distinct working node per joint, holding that joint's transform position, rotation and configuration. |
| `CCD.ConstrainedAngle` | Assets/Scripts/MyCCDIKSolver.cs:86-93 | With max enabled, the angle is <= max. With min enabled and limits consistent, it is >= min. An angle within the limits is unchanged. Inverted limits give max, because the min clamp comes first. |
| `CCD.ApplyRotationConstraint` | Assets/Scripts/MyCCDIKSolver.cs:81-100 | Without flags, the rotation is returned unchanged. With a flag, the result is `AngleAxis` of the clamped `ToAngleAxis` angle about the `ToAngleAxis` axis. |
| `CCD.ConstraintWithinLimits` | Assets/Scripts/MyCCDIKSolver.cs:83-94 | With a flag and consistent limits, the result is `AngleAxis`, about the rotation's own `ToAngleAxis` axis, of an angle within the limits; a rotation whose angle is already within them comes back as `AngleAxis` of its own angle and axis. |
| `CCD.SweepStep` | Assets/Scripts/MyCCDIKSolver.cs:51-62 | No contract of its own: the joint's turn and clamp, and the moved end estimate, are its defining formula over the engine operations. |
| `CCD.Sweep` | Assets/Scripts/MyCCDIKSolver.cs:49-63 | A sweep over joints k-1..0 leaves every relative rotation at index k and above untouched. |
| `CCD.SweepWithinLimits` | Assets/Scripts/MyCCDIKSolver.cs:59-60 | Every swept joint with consistent limits ends with a rotation by an angle within them. |
| `CCD.Iterate` | Assets/Scripts/MyCCDIKSolver.cs:48-75 | One iteration keeps one entry per joint in positions, rotations and relative rotations. |
| `CCD.Run` | Assets/Scripts/MyCCDIKSolver.cs:46-76 | The loop keeps one entry per joint in positions, rotations and relative rotations. |
| `CCD.Initial` | Assets/Scripts/MyCCDIKSolver.cs:33-43 | The loop starts from the given nodes with zero iterations, and its relative rotations are `Inverse(base) * rot[0]` and then `Inverse(rot[i-1]) * rot[i]`. |
| `CCD.RunStops` | Assets/Scripts/MyCCDIKSolver.cs:46-76 | The loop ends with the tip within tolerance or the limit reached, and never counts past the limit. |
| `CCD.RunIdle` | Assets/Scripts/MyCCDIKSolver.cs:34-46 | When the tip starts within tolerance, or the limit allows no iteration, the initial state, including the initial relative rotations, is returned. |
| `CCD.RunKeepsRoot` | Assets/Scripts/MyCCDIKSolver.cs:65-71 | The root position never changes. |
| `CCD.RunKeepsTipLocal` | Assets/Scripts/MyCCDIKSolver.cs:49 | The tip's relative rotation keeps its initial value. |
| `CCD.RunRebuilds` | Assets/Scripts/MyCCDIKSolver.cs:65-71 | After at least one iteration, rotations and positions are exactly those that the relative rotations and link lengths rebuild from the root. |
| `CCD.RunWithinLimits` | Assets/Scripts/MyCCDIKSolver.cs:59-60 | After at least one iteration, every joint but the tip with consistent limits has a relative rotation within them. |
| `CCD.CCDSolver.constructor` | Assets/Scripts/MyCCDIKSolver.cs:8 | `tolerance` starts at 0.01. |
| `CCD.CCDSolver.SweepLocals` | Assets/Scripts/MyCCDIKSolver.cs:48-63 | The backward `for` loop leaves the relative rotations equal to `Sweep` from the tip's position. |
| `CCD.CCDSolver.RebuildChain` | Assets/Scripts/MyCCDIKSolver.cs:65-71 | The forward rebuild leaves the nodes' rotations and positions equal to the chain rebuilt from the unmoved root. |
| `CCD.CCDSolver.InitialLocals` | Assets/Scripts/MyCCDIKSolver.cs:35-43 | The fresh array holds `Inverse(base) * rot[0]` and then `Inverse(rot[i-1]) * rot[i]`. |
| `CCD.CCDSolver.Iteration` | Assets/Scripts/MyCCDIKSolver.cs:48-71 | One pass of the loop body moves the nodes and relative rotations exactly as `Iterate` does. |
| `CCD.CCDSolver.SolveIK` | Assets/Scripts/MyCCDIKSolver.cs:29-79 | The returned fresh array of n entries, and the final nodes, are those of `Run` from the initial chain. |
| `CCD.CCDSolver.Solve` | Assets/Scripts/MyCCDIKSolver.cs:10-26 | The result is `Run` from the transforms' positions and rotations, with the root parent's rotation (or the identity) as base; the target rotation plays no part. |
| `FABRIK.Reach` | Assets/Scripts/MyFABRIKSolver.cs:48-49 | No contract of its own: `(p - anchor).normalized * len + anchor` is its defining formula over the engine operations. |
| `FABRIK.ForwardFrom` | Assets/Scripts/MyFABRIKSolver.cs:46-50 | The forward loop from index i leaves every entry above i untouched. |
| `FABRIK.ForwardPass` | Assets/Scripts/MyFABRIKSolver.cs:45-50 | The forward pass keeps one position per node. |
| `FABRIK.ForwardFromPulls` | Assets/Scripts/MyFABRIKSolver.cs:46-50 | Each node the forward loop visits is pulled from its old position towards its child's new one, by `distances[i]`. |
| `FABRIK.ForwardPassPlaces` | Assets/Scripts/MyFABRIKSolver.cs:45-50 | The forward pass puts the tip exactly on the target and every other node at `Reach(old, child's new, d[i])`. |
| `FABRIK.BackwardFrom` | Assets/Scripts/MyFABRIKSolver.cs:54-58 | The backward loop from index i leaves every entry below i untouched. |
| `FABRIK.BackwardPass` | Assets/Scripts/MyFABRIKSolver.cs:53-58 | The backward pass keeps one position per node and puts the root on its initial position. |
| `FABRIK.BackwardFromPulls` | Assets/Scripts/MyFABRIKSolver.cs:54-58 | Each node the backward loop visits is pulled towards its parent's new position, by `distances[i-1]`. |
| `FABRIK.BackwardPassPlaces` | Assets/Scripts/MyFABRIKSolver.cs:53-58 | The backward pass puts the root exactly on its initial position and every other node at `Reach(forward, parent's new, d[i-1])`. |
| `FABRIK.AimedRotation` | Assets/Scripts/MyFABRIKSolver.cs:109-110 | No contract of its own: `FromToRotation(up, next - position)` is its defining formula over the engine operations. |
| `FABRIK.Aim` | Assets/Scripts/MyFABRIKSolver.cs:62-65 | Aiming keeps one rotation per node. |
| `FABRIK.Iterate` | Assets/Scripts/MyFABRIKSolver.cs:44-88 | One iteration keeps the chain's shape and counts one iteration. |
| `FABRIK.Run` | Assets/Scripts/MyFABRIKSolver.cs:42-89 | The loop keeps one entry per node in positions, rotations and relative rotations. |
| `FABRIK.Initial` | Assets/Scripts/MyFABRIKSolver.cs:35-38 | The loop starts from the given nodes with a result array of all-zero quaternions. |
| `FABRIK.RunStops` | Assets/Scripts/MyFABRIKSolver.cs:42-88 | The loop ends with the tip within tolerance or the limit reached, and never counts past the limit. |
| `FABRIK.RunIdle` | Assets/Scripts/MyFABRIKSolver.cs:35-42 | If the loop never runs, the nodes are unchanged and every returned entry is the all-zero default quaternion. |
| `FABRIK.RunKeepsRoot` | Assets/Scripts/MyFABRIKSolver.cs:53-85 | The root ends on its initial position. |
| `FABRIK.RunKeepsTipRotation` | Assets/Scripts/MyFABRIKSolver.cs:62-65 | The tip's world rotation is never re-aimed. |
| `FABRIK.IterateFeedsBack` | Assets/Scripts/MyFABRIKSolver.cs:44-85 | One iteration from s sets the rotations to `Aim` of the chain that the forward pass (to the target) and then the backward pass (to the root) place from s's positions, keeping the tip's rotation; the relative rotations are those of the new rotations, and the positions are the chain rebuilt from them and from the root. |
| `FABRIK.LastStart` | Assets/Scripts/MyFABRIKSolver.cs:42-88 | When the loop runs, its last pass starts from a well-formed state at or after s, with fewer than `maxIterations` passes done. |
| `FABRIK.RunFeedsBack` | Assets/Scripts/MyFABRIKSolver.cs:62-85 | After at least one iteration, the final state is one iteration from the state the last pass started from (`LastStart`), and it is fed back: rotations aimed along the forward-then-backward chain placed from that state's positions, relative rotations of those, positions rebuilt from the root. |
| `FABRIK.FABRIKSolver.constructor` | Assets/Scripts/MyFABRIKSolver.cs:10 | `tolerance` starts at 0.01. |
| `FABRIK.FABRIKSolver.Forward` | Assets/Scripts/MyFABRIKSolver.cs:45-50 | The forward loop on the nodes leaves the positions equal to `ForwardPass` and the rotations unchanged. |
| `FABRIK.FABRIKSolver.Backward` | Assets/Scripts/MyFABRIKSolver.cs:53-58 | The backward loop on the nodes leaves the positions equal to `BackwardPass` and the rotations unchanged. |
| `FABRIK.FABRIKSolver.ApplyRotation` | Assets/Scripts/MyFABRIKSolver.cs:106-111 | The node's rotation becomes `FromToRotation(up, next - position)`, and its position is kept. |
| `FABRIK.FABRIKSolver.AimAll` | Assets/Scripts/MyFABRIKSolver.cs:62-65 | Nodes 0..n-2 are aimed at their child; the tip's rotation and all positions are kept. |
| `FABRIK.FABRIKSolver.StoreLocals` | Assets/Scripts/MyFABRIKSolver.cs:67-71 | The array holds `Inverse(base) * rot[0]` and then `Inverse(rot[i-1]) * rot[i]`. |
| `FABRIK.FABRIKSolver.Feedback` | Assets/Scripts/MyFABRIKSolver.cs:79-85 | The positions become the chain that the relative rotations and link lengths hang from the unmoved root; the rotations are kept. |
| `FABRIK.FABRIKSolver.Iteration` | Assets/Scripts/MyFABRIKSolver.cs:44-85 | One pass of the loop body changes nodes and relative rotations exactly as `Iterate` does. |
| `FABRIK.FABRIKSolver.MainLoop` | Assets/Scripts/MyFABRIKSolver.cs:37-89 | The while loop ends in exactly the state `Run` computes. |
| `FABRIK.FABRIKSolver.RunFromCopies` | Assets/Scripts/MyFABRIKSolver.cs:35-89 | From a fresh all-zero result array and the link lengths of the initial chain, the main loop leaves the result array and the nodes equal to those of `Run` from the initial chain. |
| `FABRIK.FABRIKSolver.SolveIK` | Assets/Scripts/MyFABRIKSolver.cs:32-98 | The returned fresh array of n entries, and the final nodes, are those of `Run` from the initial chain. Each joint's transform that no later joint shares holds its returned relative rotation, and no transform's parent changes. |
| `FABRIK.FABRIKSolver.WriteBack` | Assets/Scripts/MyFABRIKSolver.cs:91-95 | After the write-back loop, each transform holds the relative rotation of the last joint that uses it, and no transform's parent changes. |
| `FABRIK.FABRIKSolver.Solve` | Assets/Scripts/MyFABRIKSolver.cs:12-29 | The result is `Run` from the transforms' positions and rotations, with the root parent's rotation (or the identity) as base. The target rotation is ignored. The transforms receive the result, and no transform's parent changes. |

## Left out

- Floating point: angles, distances and weights are reals, so no float rounding is modelled.
  The constants are the decimal values written in the code (0.01, 0.002, 1e-12, 1/0.3). The
  one exception is Mathf.PI, taken as the float nearest to pi.
- Vector and quaternion arithmetic is engine code (Unity). It is passed in as uninterpreted
  operations. No group law, norm or length preservation is assumed, so convergence,
  link-length preservation and error decrease are not stated.
- Unity derives a transform's world rotation from its local rotation. `Transform` here keeps
  them as independent fields. FABRIK's write-back only sets `localRotation`.
- `GetInitial` (MyJacobianSolver.cs:11-37) reads initial angles and offsets from the scene.
  Initial angles are a parameter of `Jacobian.JacobianSolver.Solve`.
- Jacobian numerics are opaque. `Numerics` has three fields, each a function of the current
  angles:
  - `positionError` absorbs forward kinematics (MyJacobianSolver.cs:104-125) and the
    position error `targetPosition - endWorldPosition` (127);
  - `rotationError`, given the target rotation, absorbs the end rotation from forward
    kinematics and the rotation error through the log map `rot2Omega` (39-56, 128-129);
  - `deltaAngle`, given the target rotation and lambda, absorbs forward kinematics, the
    Jacobian columns (131-143) and the MathNet products and `PseudoInverse` (160-162).

  The weighted error ek (line 155), the exit test (156) and lambda (159) are computed in the
  model, by `Jacobian.WeightedError`, `Jacobian.Converged` and `Jacobian.Next`.
- Jacobian.Next: its own contract states only that one angle per joint is kept; the update itself is stated by Jacobian.UpdateInPlace and Jacobian.SolvedAnglesInRange.
- Jacobian.SolveAngles: states only that one angle per joint is kept, and does not expose its iteration count. The bound of `iterationLimit`
  passes is its termination measure and the loop guard of `Solve`.
- The Jacobian solver reads `nodes[nodes.Length - 1]` inside the loop, so it fails on an empty
  chain when the loop runs. The model requires at least one node, or a limit that lets no
  iteration run. CCD and FABRIK index the last node before their loops, so they require at
  least one node.
- Jacobian.WeightedSquare: the weights are multiplied through a named `Mul` so that the sign
  facts are stated on one term. This is the same product.
- The unused `currentEk = float.MaxValue` initial value (MyJacobianSolver.cs:102) and the
  commented-out divergence check are not modelled.
- FABRIK's per-joint constraint loop (MyFABRIKSolver.cs:73-76) has an empty body, and
  `AdjustRotation` (100-105) is called only from that commented-out line. Neither is modelled.
- Chains.LinkLengths: its own contract states only that there is one length per link; the magnitude formula is its body.
- Chains.LocalRotations: its own contract states only that there is one entry per node; the formula `Inverse(base) * r[0]`, `Inverse(r[i-1]) * r[i]` is its body, and the methods `CCD.CCDSolver.InitialLocals` and `FABRIK.FABRIKSolver.StoreLocals` are proved equal to it.
- CCD.Iterate: its own contract states only that the state keeps its shape; what it computes is stated through `CCD.CCDSolver.Iteration`, which is proved equal to it, and the lemmas about it.
- CCD.Run: its own contract states only that the state keeps its shape; what it computes is stated through `CCD.CCDSolver.SolveIK`, which is proved equal to it, and the lemmas about it.
- FABRIK.Iterate: its own contract states only that the state keeps its shape; what it computes is stated through `FABRIK.FABRIKSolver.Iteration`, which is proved equal to it, and the lemmas about it.
- FABRIK.Run: its own contract states only that the state keeps its shape; what it computes is stated through `FABRIK.FABRIKSolver.MainLoop`, which is proved equal to it, and the lemmas about it.
- FABRIK.Aim: its own contract states only that there is one rotation per node; what it computes is stated through `FABRIK.FABRIKSolver.AimAll`, which is proved equal to it, and the lemmas about it.
- FABRIK.ForwardPass: its own contract states only that there is one position per node; what it computes is stated through `FABRIK.FABRIKSolver.Forward`, which is proved equal to it, and the lemmas about it.
- FABRIK.BackwardPass: its own contract states only that there is one position per node and where the root goes; what it computes is stated through `FABRIK.FABRIKSolver.Backward`, which is proved equal to it, and the lemmas about it.
- CCD.SweepStep: no contract of its own. The inverse rotations, the projections and `FromToRotation` that compute the turn are uninterpreted engine operations, so nothing beyond the formula can be stated about it. The clamp it applies is `CCD.ApplyRotationConstraint`, characterised through `CCD.ConstrainedAngle`; only `ToAngleAxis` and `AngleAxis` inside it are uninterpreted. `CCD.Sweep`, `CCD.SweepWithinLimits` and `CCD.CCDSolver.SweepLocals` state what the sweep does with it.
- FABRIK.Reach: no contract of its own, because `normalized`, scaling and `+` are uninterpreted; `FABRIK.ForwardPassPlaces` and `FABRIK.BackwardPassPlaces` state where it puts each node.
- FABRIK.AimedRotation: no contract of its own, because `FromToRotation` is uninterpreted; `FABRIK.FABRIKSolver.ApplyRotation` and `FABRIK.IterateFeedsBack` state where it is used.
- UnityMath.DistanceToTarget: no contract of its own, because `magnitude` is uninterpreted; the loop guards of `CCD.Run` and `FABRIK.Run` use it.
- Jacobian.Step: its own contract states only that there is one entry per joint, because the pseudo-inverse step is the opaque `deltaAngle` of `Numerics`.
- Jacobian.UpdatedAngle: does not state the result as `Check` of angle + dAngle * 180 / pi, which is its body; it states the bounds that follow.
- Default arguments are not modelled: `targetRotation = null` and `iterationLimit = 10` of `Solve` (MyJacobianSolver.cs:92-93, MyFABRIKSolver.cs:12-13), and `maxIterations = 10` of FABRIK's `SolveIK` (MyFABRIKSolver.cs:33). Every parameter is passed explicitly.
- The driver `MyIK.cs`, the target animation `ObjectDynamics.cs` and the editor gizmos
  `GizmoEditor.cs` are not part of this model. The `MySolver` type the driver calls is not
  part of this model.
- `tolerance` and `epsilon` are public fields that a caller may change. They are fields of the
  solver classes here, read by `Solve`, with the code's defaults set by the constructors.
