/** The forward-and-backward-reaching solver (MyFABRIKSolver). Each iteration drags the chain
    tip-first onto the target and then root-first back onto the root's initial position,
    keeping every link length, aims each node's rotation along its link, derives the
    parent-relative rotations, and finally re-hangs the positions from those rotations. The
    relative rotations are written back to the scene's transforms. */
module FABRIK {
  import opened UnityMath
  import opened Wrappers
  import opened IKNodes
  import opened Chains

  /** The solver's `tolerance` field default. */
  const DefaultTolerance: real := 0.01

  /** The point len away from `anchor` in the direction of `p`:
      `(p - anchor).normalized * len + anchor`. */
  function Reach(g: Ops, p: Vector3, anchor: Vector3, len: real): Vector3
  {
    g.add(g.scale(len, g.normalized(g.sub(p, anchor))), anchor)
  }

  /** The forward loop from index i down to 0: each node is pulled towards its already
      placed child. Entries above i are left as they are. */
  function ForwardFrom(g: Ops, p: seq<Vector3>, d: seq<real>, i: int): (f: seq<Vector3>)
    requires |d| == |p| - 1 && -1 <= i < |p| - 1
    ensures |f| == |p|
    ensures forall k :: i < k < |p| ==> f[k] == p[k]
    decreases i + 1
  {
    if i < 0 then p else ForwardFrom(g, p[i := Reach(g, p[i], p[i + 1], d[i])], d, i - 1)
  }

  /** The forward pass: the tip is put on the target, then every other node is pulled
      towards its child, from the tip down to the root. */
  function ForwardPass(g: Ops, p: seq<Vector3>, d: seq<real>, target: Vector3): (f: seq<Vector3>)
    requires |p| >= 1 && |d| == |p| - 1
    ensures |f| == |p|
  {
    ForwardFrom(g, p[|p| - 1 := target], d, |p| - 2)
  }

  /** The backward loop from index i up to the tip: each node is pulled towards its already
      placed parent. Entries below i are left as they are. */
  function BackwardFrom(g: Ops, p: seq<Vector3>, d: seq<real>, i: nat): (b: seq<Vector3>)
    requires |d| == |p| - 1 && 1 <= i <= |p|
    ensures |b| == |p|
    ensures forall k :: 0 <= k < i ==> b[k] == p[k]
    decreases |p| - i
  {
    if i == |p| then p else BackwardFrom(g, p[i := Reach(g, p[i], p[i - 1], d[i - 1])], d, i + 1)
  }

  /** The backward pass: the root is put back on its initial position, then every other
      node is pulled towards its parent, from the root up to the tip. */
  function BackwardPass(g: Ops, p: seq<Vector3>, d: seq<real>, root: Vector3): (b: seq<Vector3>)
    requires |p| >= 1 && |d| == |p| - 1
    ensures |b| == |p| && b[0] == root
  {
    BackwardFrom(g, p[0 := root], d, 1)
  }

  /** The rotation ApplyRotation gives a node at `position` whose child is at `next`: the
      rotation taking Vector3.up onto the link direction. */
  function AimedRotation(g: Ops, position: Vector3, next: Vector3): Quaternion
  {
    g.fromToRotation(Up, g.sub(next, position))
  }

  /** The rotations after the aiming loop: every node but the tip is aimed at its child; the
      tip keeps the rotation it had. */
  function Aim(g: Ops, p: seq<Vector3>, r: seq<Quaternion>): (a: seq<Quaternion>)
    requires |p| == |r|
    ensures |a| == |r|
  {
    seq(|r|, i requires 0 <= i < |r| => if i < |r| - 1 then AimedRotation(g, p[i], p[i + 1]) else r[i])
  }

  /** One iteration from state s, with root the root's initial position. */
  function Iterate(g: Ops, base: Quaternion, d: seq<real>, target: Vector3, root: Vector3,
                   s: State): (t: State)
    requires WellFormed(s.positions, d, s)
    ensures WellFormed(t.positions, d, t) && |t.positions| == |s.positions|
    ensures t.iterations == s.iterations + 1
  {
    var b := BackwardPass(g, ForwardPass(g, s.positions, d, target), d, root);
    var r := Aim(g, b, s.rotations);
    var l := LocalRotations(g, base, r);
    State(ChainPositions(g, base, l, d, b[0]), r, l, s.iterations + 1)
  }

  /** The main loop: iterate while the tip is farther than `tolerance` from the target and
      fewer than `limit` iterations have run. */
  function Run(g: Ops, base: Quaternion, d: seq<real>, target: Vector3, root: Vector3,
               tolerance: real, limit: int, s: State): (t: State)
    requires WellFormed(s.positions, d, s)
    ensures WellFormed(t.positions, d, t) && |t.positions| == |s.positions|
    decreases limit - s.iterations
  {
    if DistanceToTarget(g, target, s.positions[|s.positions| - 1]) > tolerance && s.iterations < limit then
      Run(g, base, d, target, root, tolerance, limit, Iterate(g, base, d, target, root, s))
    else s
  }

  /** The state SolveIK starts from: the nodes as given, and a fresh result array whose
      slots all hold the all-zero default quaternion. */
  function Initial(p: seq<Vector3>, r: seq<Quaternion>): (s: State)
    requires |p| == |r|
    ensures s.positions == p && s.rotations == r && s.iterations == 0
    ensures |s.locals| == |p| && forall i :: 0 <= i < |p| ==> s.locals[i] == DefaultRotation
  {
    State(p, r, seq(|p|, i => DefaultRotation), 0)
  }

  /** Every node below the tip sits where the forward loop puts it: pulled from its own old
      position towards its child's new one. */
  lemma {:induction false} ForwardFromPulls(g: Ops, p: seq<Vector3>, d: seq<real>, i: int, k: nat)
    requires |d| == |p| - 1 && -1 <= i < |p| - 1 && k <= i
    ensures var f := ForwardFrom(g, p, d, i);
            f[k] == Reach(g, p[k], f[k + 1], d[k])
    decreases i + 1
  {
    var p' := p[i := Reach(g, p[i], p[i + 1], d[i])];
    if k < i {
      ForwardFromPulls(g, p', d, i - 1, k);
    }
  }

  /** The forward pass pins the tip to the target and pulls every other node towards its
      child. */
  lemma ForwardPassPlaces(g: Ops, p: seq<Vector3>, d: seq<real>, target: Vector3)
    requires |p| >= 1 && |d| == |p| - 1
    ensures var f := ForwardPass(g, p, d, target);
            f[|p| - 1] == target &&
            forall k :: 0 <= k < |p| - 1 ==> f[k] == Reach(g, p[k], f[k + 1], d[k])
  {
    var p' := p[|p| - 1 := target];
    forall k | 0 <= k < |p| - 1
      ensures ForwardPass(g, p, d, target)[k] == Reach(g, p[k], ForwardPass(g, p, d, target)[k + 1], d[k])
    {
      ForwardFromPulls(g, p', d, |p| - 2, k);
    }
  }

  /** Every node above the root sits where the backward loop puts it: pulled from its
      forward-pass position towards its parent's new one. */
  lemma {:induction false} BackwardFromPulls(g: Ops, p: seq<Vector3>, d: seq<real>, i: nat, k: nat)
    requires |d| == |p| - 1 && 1 <= i <= k < |p|
    ensures var b := BackwardFrom(g, p, d, i);
            b[k] == Reach(g, p[k], b[k - 1], d[k - 1])
    decreases |p| - i
  {
    var p' := p[i := Reach(g, p[i], p[i - 1], d[i - 1])];
    if i < k {
      BackwardFromPulls(g, p', d, i + 1, k);
    }
  }

  /** The backward pass puts the root back on its initial position and pulls every other
      node towards its parent. */
  lemma BackwardPassPlaces(g: Ops, p: seq<Vector3>, d: seq<real>, root: Vector3)
    requires |p| >= 1 && |d| == |p| - 1
    ensures var b := BackwardPass(g, p, d, root);
            b[0] == root &&
            forall k :: 1 <= k < |p| ==> b[k] == Reach(g, p[k], b[k - 1], d[k - 1])
  {
    var p' := p[0 := root];
    forall k | 1 <= k < |p|
      ensures BackwardPass(g, p, d, root)[k] == Reach(g, p[k], BackwardPass(g, p, d, root)[k - 1], d[k - 1])
    {
      BackwardFromPulls(g, p', d, 1, k);
    }
  }

  /** The loop ends in a state where its condition fails, and never runs past the limit. */
  lemma {:induction false} RunStops(g: Ops, base: Quaternion, d: seq<real>, target: Vector3, root: Vector3,
                                    tolerance: real, limit: int, s: State)
    requires WellFormed(s.positions, d, s)
    ensures var t := Run(g, base, d, target, root, tolerance, limit, s);
            (DistanceToTarget(g, target, t.positions[|t.positions| - 1]) <= tolerance || t.iterations >= limit) &&
            s.iterations <= t.iterations && (t.iterations == s.iterations || t.iterations <= limit)
    decreases limit - s.iterations
  {
    if DistanceToTarget(g, target, s.positions[|s.positions| - 1]) > tolerance && s.iterations < limit {
      RunStops(g, base, d, target, root, tolerance, limit, Iterate(g, base, d, target, root, s));
    }
  }

  /** When the loop does not run, nothing changes: in particular the returned relative
      rotations are all the default all-zero quaternion, not the identity. */
  lemma RunIdle(g: Ops, base: Quaternion, d: seq<real>, target: Vector3, p: seq<Vector3>, r: seq<Quaternion>,
                tolerance: real, limit: int)
    requires |p| == |r| >= 1 && |d| == |p| - 1
    requires DistanceToTarget(g, target, p[|p| - 1]) <= tolerance || limit <= 0
    ensures var t := Run(g, base, d, target, p[0], tolerance, limit, Initial(p, r));
            t.positions == p && t.rotations == r &&
            forall i :: 0 <= i < |p| ==> t.locals[i] == DefaultRotation
  {
  }

  /** The root ends where it started: the backward pass puts it back and the feedback hangs
      the chain from it. */
  lemma {:induction false} RunKeepsRoot(g: Ops, base: Quaternion, d: seq<real>, target: Vector3, root: Vector3,
                                        tolerance: real, limit: int, s: State)
    requires WellFormed(s.positions, d, s) && s.positions[0] == root
    ensures Run(g, base, d, target, root, tolerance, limit, s).positions[0] == root
    decreases limit - s.iterations
  {
    if DistanceToTarget(g, target, s.positions[|s.positions| - 1]) > tolerance && s.iterations < limit {
      var next := Iterate(g, base, d, target, root, s);
      BackwardPassPlaces(g, ForwardPass(g, s.positions, d, target), d, root);
      RunKeepsRoot(g, base, d, target, root, tolerance, limit, next);
    }
  }

  /** The tip's world rotation is never recomputed: the aiming loop stops before the tip. */
  lemma {:induction false} RunKeepsTipRotation(g: Ops, base: Quaternion, d: seq<real>, target: Vector3,
                                               root: Vector3, tolerance: real, limit: int, s: State)
    requires WellFormed(s.positions, d, s)
    ensures var t := Run(g, base, d, target, root, tolerance, limit, s);
            t.rotations[|t.rotations| - 1] == s.rotations[|s.rotations| - 1]
    decreases limit - s.iterations
  {
    if DistanceToTarget(g, target, s.positions[|s.positions| - 1]) > tolerance && s.iterations < limit {
      RunKeepsTipRotation(g, base, d, target, root, tolerance, limit, Iterate(g, base, d, target, root, s));
    }
  }

  /** What one iteration from u leaves behind in t: every node below the tip aimed along a
      link of the chain the forward and backward passes place from u's positions (the tip
      keeping its rotation), the relative rotations of those rotations, and the positions
      they and the link lengths hang from the root. */
  predicate FedBack(g: Ops, base: Quaternion, d: seq<real>, target: Vector3, root: Vector3, u: State, t: State)
    requires WellFormed(u.positions, d, u) && WellFormed(t.positions, d, t)
    requires |t.positions| == |u.positions|
  {
    t.rotations == Aim(g, BackwardPass(g, ForwardPass(g, u.positions, d, target), d, root), u.rotations) &&
    t.locals == LocalRotations(g, base, t.rotations) &&
    t.positions == ChainPositions(g, base, t.locals, d, root)
  }

  /** One iteration feeds back: the re-hung chain starts at the root the backward pass put
      back, so the positions are those of the relative rotations hung from `root`. */
  lemma IterateFeedsBack(g: Ops, base: Quaternion, d: seq<real>, target: Vector3, root: Vector3, s: State)
    requires WellFormed(s.positions, d, s)
    ensures FedBack(g, base, d, target, root, s, Iterate(g, base, d, target, root, s))
  {
    var b := BackwardPass(g, ForwardPass(g, s.positions, d, target), d, root);
    assert b[0] == root;
  }

  /** The state the loop's last iteration starts from, when the loop runs at least once. */
  function LastStart(g: Ops, base: Quaternion, d: seq<real>, target: Vector3, root: Vector3,
                     tolerance: real, limit: int, s: State): (u: State)
    requires WellFormed(s.positions, d, s)
    requires DistanceToTarget(g, target, s.positions[|s.positions| - 1]) > tolerance && s.iterations < limit
    ensures WellFormed(u.positions, d, u) && |u.positions| == |s.positions|
    ensures s.iterations <= u.iterations < limit
    decreases limit - s.iterations
  {
    var next := Iterate(g, base, d, target, root, s);
    if DistanceToTarget(g, target, next.positions[|next.positions| - 1]) > tolerance && next.iterations < limit then
      LastStart(g, base, d, target, root, tolerance, limit, next)
    else s
  }

  /** After at least one iteration, the final state is the last iteration applied to the state
      it started from, and that iteration fed back (see FedBack). */
  lemma {:induction false} RunFeedsBack(g: Ops, base: Quaternion, d: seq<real>, target: Vector3, root: Vector3,
                                        tolerance: real, limit: int, s: State)
    requires WellFormed(s.positions, d, s)
    requires DistanceToTarget(g, target, s.positions[|s.positions| - 1]) > tolerance && s.iterations < limit
    ensures var u := LastStart(g, base, d, target, root, tolerance, limit, s);
            var t := Run(g, base, d, target, root, tolerance, limit, s);
            t == Iterate(g, base, d, target, root, u) && FedBack(g, base, d, target, root, u, t)
    decreases limit - s.iterations
  {
    var next := Iterate(g, base, d, target, root, s);
    if DistanceToTarget(g, target, next.positions[|next.positions| - 1]) > tolerance && next.iterations < limit {
      RunFeedsBack(g, base, d, target, root, tolerance, limit, next);
    } else {
      assert Run(g, base, d, target, root, tolerance, limit, s) == next;
      IterateFeedsBack(g, base, d, target, root, s);
    }
  }

  /** MyFABRIKSolver, whose one setting is the distance below which the tip counts as arrived. */
  class FABRIKSolver {
    var tolerance: real

    constructor ()
      ensures tolerance == DefaultTolerance
    {
      tolerance := DefaultTolerance;
    }

    /** The forward loop over the working nodes. */
    method Forward(g: Ops, nodes: seq<CalcNode>, distances: seq<real>, targetPosition: Vector3)
      requires |nodes| >= 1 && |distances| == |nodes| - 1 && Distinct(nodes)
      modifies nodes
      ensures Positions(nodes) == ForwardPass(g, old(Positions(nodes)), distances, targetPosition)
      ensures Rotations(nodes) == old(Rotations(nodes))
    {
      ghost var p := Positions(nodes);
      ghost var spec := ForwardPass(g, p, distances, targetPosition);
      nodes[|nodes| - 1].position := targetPosition;
      assert Positions(nodes) == p[|nodes| - 1 := targetPosition];
      var i := |nodes| - 2;
      while i >= 0
        invariant -1 <= i <= |nodes| - 2
        invariant spec == ForwardFrom(g, Positions(nodes), distances, i)
        invariant Rotations(nodes) == old(Rotations(nodes))
        decreases i + 1
      {
        ghost var before := Positions(nodes);
        nodes[i].position := g.add(g.scale(distances[i], g.normalized(g.sub(nodes[i].position, nodes[i + 1].position))),
                                   nodes[i + 1].position);
        assert Positions(nodes) == before[i := Reach(g, before[i], before[i + 1], distances[i])];
        i := i - 1;
      }
    }

    /** The backward loop over the working nodes. */
    method Backward(g: Ops, nodes: seq<CalcNode>, distances: seq<real>, initialPosition: Vector3)
      requires |nodes| >= 1 && |distances| == |nodes| - 1 && Distinct(nodes)
      modifies nodes
      ensures Positions(nodes) == BackwardPass(g, old(Positions(nodes)), distances, initialPosition)
      ensures Rotations(nodes) == old(Rotations(nodes))
    {
      ghost var p := Positions(nodes);
      ghost var spec := BackwardPass(g, p, distances, initialPosition);
      nodes[0].position := initialPosition;
      assert Positions(nodes) == p[0 := initialPosition];
      for i := 1 to |nodes|
        invariant spec == BackwardFrom(g, Positions(nodes), distances, i)
        invariant Rotations(nodes) == old(Rotations(nodes))
      {
        ghost var before := Positions(nodes);
        nodes[i].position := g.add(g.scale(distances[i - 1], g.normalized(g.sub(nodes[i].position, nodes[i - 1].position))),
                                   nodes[i - 1].position);
        assert Positions(nodes) == before[i := Reach(g, before[i], before[i - 1], distances[i - 1])];
      }
    }

    /** ApplyRotation: turn the node so that its up direction points at the next node. */
    method ApplyRotation(g: Ops, node: CalcNode, nextNodePosition: Vector3)
      modifies node
      ensures node.rotation == AimedRotation(g, node.position, nextNodePosition)
      ensures node.position == old(node.position)
    {
      var targetDirection := g.sub(nextNodePosition, node.position);
      node.rotation := g.fromToRotation(Up, targetDirection);
    }

    /** The aiming loop: every node but the tip is aimed at its child. */
    method AimAll(g: Ops, nodes: seq<CalcNode>)
      requires |nodes| >= 1 && Distinct(nodes)
      modifies nodes
      ensures Rotations(nodes) == Aim(g, old(Positions(nodes)), old(Rotations(nodes)))
      ensures Positions(nodes) == old(Positions(nodes))
    {
      for i := 0 to |nodes| - 1
        invariant Positions(nodes) == old(Positions(nodes))
        invariant forall k :: 0 <= k < i ==>
                    nodes[k].rotation == AimedRotation(g, nodes[k].position, nodes[k + 1].position)
        invariant forall k :: i <= k < |nodes| ==> nodes[k].rotation == old(nodes[k].rotation)
      {
        ApplyRotation(g, nodes[i], nodes[i + 1].position);
      }
    }

    /** The relative rotations of the aimed nodes, written into the result array. */
    method StoreLocals(g: Ops, nodes: seq<CalcNode>, baseRotation: Quaternion, localRotations: array<Quaternion>)
      requires |nodes| >= 1 && localRotations.Length == |nodes|
      modifies localRotations
      ensures localRotations[..] == LocalRotations(g, baseRotation, Rotations(nodes))
    {
      localRotations[0] := g.mul(g.inverse(baseRotation), nodes[0].rotation);
      for i := 1 to |nodes|
        invariant localRotations[0] == g.mul(g.inverse(baseRotation), nodes[0].rotation)
        invariant forall k :: 1 <= k < i ==>
                    localRotations[k] == g.mul(g.inverse(nodes[k - 1].rotation), nodes[k].rotation)
      {
        localRotations[i] := g.mul(g.inverse(nodes[i - 1].rotation), nodes[i].rotation);
      }
    }

    /** The feedback loop: re-hang every node below its parent along the parent's world
        rotation composed from the base and the relative rotations. */
    method Feedback(g: Ops, nodes: seq<CalcNode>, baseRotation: Quaternion, localRotations: array<Quaternion>,
                    distances: seq<real>)
      requires |nodes| >= 1 && |distances| == |nodes| - 1 && Distinct(nodes)
      requires localRotations.Length == |nodes|
      modifies nodes
      ensures Positions(nodes) == ChainPositions(g, baseRotation, localRotations[..], distances,
                                                 old(nodes[0].position))
      ensures Rotations(nodes) == old(Rotations(nodes))
    {
      ghost var l, root, r := localRotations[..], nodes[0].position, Rotations(nodes);
      ghost var w := WorldRotations(g, baseRotation, l);
      ghost var p := ChainPositions(g, baseRotation, l, distances, root);
      var globalRotation := baseRotation;
      for i := 1 to |nodes|
        invariant i == 1 ==> globalRotation == baseRotation
        invariant i >= 2 ==> globalRotation == w[i - 2]
        invariant forall k :: 0 <= k < i ==> nodes[k].position == p[k]
        invariant forall k :: 0 <= k < |nodes| ==> nodes[k].rotation == r[k]
      {
        RebuildRecurrence(g, baseRotation, l, distances, root, i);
        if i >= 2 {
          RebuildRecurrence(g, baseRotation, l, distances, root, i - 1);
        }
        nodes[i].position := g.add(g.rotate(g.mul(globalRotation, localRotations[i - 1]), g.scale(distances[i - 1], Up)),
                                   nodes[i - 1].position);
        globalRotation := g.mul(globalRotation, localRotations[i - 1]);
      }
      assert Positions(nodes) == p;
      assert Rotations(nodes) == r;
    }

    /** One iteration of the main loop on the working nodes and the result array. */
    method Iteration(g: Ops, nodes: seq<CalcNode>, baseRotation: Quaternion, targetPosition: Vector3,
                     initialPosition: Vector3, localRotations: array<Quaternion>, distances: seq<real>,
                     ghost iterations: int)
      requires |nodes| >= 1 && Distinct(nodes)
      requires localRotations.Length == |nodes| && |distances| == |nodes| - 1
      modifies nodes, localRotations
      ensures State(Positions(nodes), Rotations(nodes), localRotations[..], iterations + 1) ==
              Iterate(g, baseRotation, distances, targetPosition, initialPosition,
                      State(old(Positions(nodes)), old(Rotations(nodes)), old(localRotations[..]), iterations))
    {
      ghost var p, r := Positions(nodes), Rotations(nodes);
      Forward(g, nodes, distances, targetPosition);
      Backward(g, nodes, distances, initialPosition);
      ghost var b := Positions(nodes);
      assert b == BackwardPass(g, ForwardPass(g, p, distances, targetPosition), distances, initialPosition);
      AimAll(g, nodes);
      assert Rotations(nodes) == Aim(g, b, r);
      StoreLocals(g, nodes, baseRotation, localRotations);
      assert Positions(nodes) == b;
      Feedback(g, nodes, baseRotation, localRotations, distances);
    }

    /** The computing part of SolveIK: a fresh result array of all-zero quaternions, the link
        lengths of the initial chain, and the main loop from the root's initial position. */
    method RunFromCopies(g: Ops, nodes: seq<CalcNode>, baseRotation: Quaternion, targetPosition: Vector3,
                         maxIterations: int)
      returns (localRotations: array<Quaternion>)
      requires |nodes| >= 1 && Distinct(nodes)
      modifies nodes
      ensures fresh(localRotations) && localRotations.Length == |nodes|
      ensures var t := Run(g, baseRotation, LinkLengths(g, old(Positions(nodes))), targetPosition,
                           old(nodes[0].position), tolerance, maxIterations,
                           Initial(old(Positions(nodes)), old(Rotations(nodes))));
              localRotations[..] == t.locals && Positions(nodes) == t.positions &&
              Rotations(nodes) == t.rotations
    {
      ghost var s0 := Initial(Positions(nodes), Rotations(nodes));
      var n := |nodes|;
      var initialPosition := nodes[0].position;
      localRotations := new Quaternion[n](i => DefaultRotation);
      var distances := LinkLengths(g, Positions(nodes));
      assert State(Positions(nodes), Rotations(nodes), localRotations[..], 0) == s0;
      var iterations := MainLoop(g, nodes, baseRotation, targetPosition, initialPosition, localRotations,
                                 distances, maxIterations);
    }

    /** SolveIK: runs the main loop from the working copies, then writes every relative
        rotation into the matching joint's transform. A transform shared by several joints
        keeps the value of the last of them. */
    method SolveIK(g: Ops, ikNodes: seq<IKNode>, nodes: seq<CalcNode>, baseRotation: Quaternion,
                   targetPosition: Vector3, maxIterations: int)
      returns (localRotations: array<Quaternion>)
      requires |nodes| >= 1 && |ikNodes| == |nodes| && Distinct(nodes)
      modifies nodes, set i | 0 <= i < |ikNodes| :: ikNodes[i].transform
      ensures fresh(localRotations) && localRotations.Length == |nodes|
      ensures var t := Run(g, baseRotation, LinkLengths(g, old(Positions(nodes))), targetPosition,
                           old(nodes[0].position), tolerance, maxIterations,
                           Initial(old(Positions(nodes)), old(Rotations(nodes))));
              localRotations[..] == t.locals && Positions(nodes) == t.positions &&
              Rotations(nodes) == t.rotations
      ensures forall i :: 0 <= i < |ikNodes| && LastWriter(ikNodes, i) ==>
                ikNodes[i].transform.localRotation == localRotations[i]
      ensures forall i :: 0 <= i < |ikNodes| ==> ikNodes[i].transform.parent == old(ikNodes[i].transform.parent)
    {
      ghost var t := Run(g, baseRotation, LinkLengths(g, Positions(nodes)), targetPosition, nodes[0].position,
                         tolerance, maxIterations, Initial(Positions(nodes), Rotations(nodes)));
      localRotations := RunFromCopies(g, nodes, baseRotation, targetPosition, maxIterations);
      assert Positions(nodes) == t.positions && Rotations(nodes) == t.rotations && localRotations[..] == t.locals;
      WriteBack(ikNodes, localRotations);
      assert Positions(nodes) == t.positions && Rotations(nodes) == t.rotations && localRotations[..] == t.locals;
    }

    /** The main loop: iterate while the tip is farther than `tolerance` from the target and
        fewer than `maxIterations` iterations have run. */
    method MainLoop(g: Ops, nodes: seq<CalcNode>, baseRotation: Quaternion, targetPosition: Vector3,
                    initialPosition: Vector3, localRotations: array<Quaternion>, distances: seq<real>,
                    maxIterations: int)
      returns (iterations: int)
      requires |nodes| >= 1 && Distinct(nodes)
      requires localRotations.Length == |nodes| && |distances| == |nodes| - 1
      modifies nodes, localRotations
      ensures State(Positions(nodes), Rotations(nodes), localRotations[..], iterations) ==
              Run(g, baseRotation, distances, targetPosition, initialPosition, tolerance, maxIterations,
                  State(old(Positions(nodes)), old(Rotations(nodes)), old(localRotations[..]), 0))
    {
      var n := |nodes|;
      iterations := 0;
      var distanceToTarget := DistanceToTarget(g, targetPosition, nodes[n - 1].position);
      ghost var spec := Run(g, baseRotation, distances, targetPosition, initialPosition, tolerance, maxIterations,
                            State(Positions(nodes), Rotations(nodes), localRotations[..], 0));
      while distanceToTarget > tolerance && iterations < maxIterations
        invariant distanceToTarget == DistanceToTarget(g, targetPosition, nodes[n - 1].position)
        invariant spec == Run(g, baseRotation, distances, targetPosition, initialPosition, tolerance, maxIterations,
                              State(Positions(nodes), Rotations(nodes), localRotations[..], iterations))
        decreases maxIterations - iterations
      {
        Iteration(g, nodes, baseRotation, targetPosition, initialPosition, localRotations, distances, iterations);
        distanceToTarget := DistanceToTarget(g, targetPosition, nodes[n - 1].position);
        iterations := iterations + 1;
      }
    }

    /** The write-back loop: joint i's transform gets localRotations[i], in joint order. */
    method WriteBack(ikNodes: seq<IKNode>, localRotations: array<Quaternion>)
      requires localRotations.Length == |ikNodes|
      modifies set i | 0 <= i < |ikNodes| :: ikNodes[i].transform
      ensures forall i :: 0 <= i < |ikNodes| && LastWriter(ikNodes, i) ==>
                ikNodes[i].transform.localRotation == localRotations[i]
      ensures forall i :: 0 <= i < |ikNodes| ==> ikNodes[i].transform.parent == old(ikNodes[i].transform.parent)
    {
      for i := 0 to |ikNodes|
        invariant forall k :: 0 <= k < i && LastWriterBefore(ikNodes, k, i) ==>
                    ikNodes[k].transform.localRotation == localRotations[k]
        invariant forall k :: 0 <= k < |ikNodes| ==> ikNodes[k].transform.parent == old(ikNodes[k].transform.parent)
      {
        ikNodes[i].transform.localRotation := localRotations[i];
      }
    }

    /** Solve: copy each joint's transform position and rotation into a fresh working node
        and run SolveIK from the root parent's rotation. The target rotation is accepted and
        not used. */
    method Solve(g: Ops, nodes: seq<IKNode>, targetPosition: Vector3, targetRotation: Option<Quaternion>,
                 iterationLimit: int)
      returns (localRotations: array<Quaternion>)
      requires |nodes| >= 1
      modifies set i | 0 <= i < |nodes| :: nodes[i].transform
      ensures fresh(localRotations) && localRotations.Length == |nodes|
      ensures localRotations[..] ==
                Run(g, old(BaseRotation(nodes[0])), LinkLengths(g, old(TransformPositions(nodes))), targetPosition,
                    old(nodes[0].transform.position), tolerance, iterationLimit,
                    Initial(old(TransformPositions(nodes)), old(TransformRotations(nodes)))).locals
      ensures forall i :: 0 <= i < |nodes| && LastWriter(nodes, i) ==>
                nodes[i].transform.localRotation == localRotations[i]
      ensures forall i :: 0 <= i < |nodes| ==> nodes[i].transform.parent == old(nodes[i].transform.parent)
    {
      var base := BaseRotation(nodes[0]);
      ghost var p, r := TransformPositions(nodes), TransformRotations(nodes);
      ghost var t := Run(g, base, LinkLengths(g, p), targetPosition, nodes[0].transform.position,
                         tolerance, iterationLimit, Initial(p, r));
      var copies := WorkingCopies(nodes);
      assert Positions(copies) == p && Rotations(copies) == r && copies[0].position == p[0];
      localRotations := SolveIK(g, nodes, copies, base, targetPosition, iterationLimit);
      assert localRotations[..] == t.locals;
    }
  }

  /** Joint i is the last of the first `upTo` joints to use its transform. */
  ghost predicate LastWriterBefore(nodes: seq<IKNode>, i: nat, upTo: nat)
    requires i < |nodes| && upTo <= |nodes|
  {
    forall j :: i < j < upTo ==> nodes[j].transform != nodes[i].transform
  }

  /** Joint i is the last joint of the chain to use its transform. */
  ghost predicate LastWriter(nodes: seq<IKNode>, i: nat)
    requires i < |nodes|
  {
    LastWriterBefore(nodes, i, |nodes|)
  }
}
