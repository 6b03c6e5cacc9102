/** The joint records (IKObjectNode.cs): IKNode as the scene configures a joint, and
    IKNodeForCalculation, the working copy a solver updates in place. */
module IKNodes {
  import opened UnityMath

  /** The parts of a scene-graph transform that the solvers read or write. Unity derives the
      world rotation from the local one; here they are independent fields (see README). */
  class Transform {
    var position: Vector3
    var rotation: Quaternion
    var localRotation: Quaternion
    var parent: Transform?
  }

  /** The configuration of one joint: its rotation axis and optional angle limits (degrees). */
  datatype Joint = Joint(
    axis: Vector3,
    useRotationMin: bool,
    rotationMin: real,
    useRotationMax: bool,
    rotationMax: real)

  /** IKNode: a joint of the chain as the driver hands it to a solver. Its own fields are only
      read; the solvers write through its transform. */
  datatype IKNode = IKNode(
    id: int,
    transform: Transform,
    axis: Vector3,
    useRotationMin: bool,
    rotationMin: real,
    useRotationMax: bool,
    rotationMax: real)
  {
    function AsJoint(): Joint
    {
      Joint(axis, useRotationMin, rotationMin, useRotationMax, rotationMax)
    }
  }

  /** IKNodeForCalculation: a solver's private copy of one joint. The solvers write position
      and rotation; the rest never changes after the copy is made. */
  class CalcNode {
    var position: Vector3
    var rotation: Quaternion
    const axis: Vector3
    const useRotationMin: bool
    const rotationMin: real
    const useRotationMax: bool
    const rotationMax: real

    constructor (position: Vector3, rotation: Quaternion, joint: Joint)
      ensures this.position == position && this.rotation == rotation
      ensures AsJoint() == joint
    {
      this.position := position;
      this.rotation := rotation;
      axis := joint.axis;
      useRotationMin := joint.useRotationMin;
      rotationMin := joint.rotationMin;
      useRotationMax := joint.useRotationMax;
      rotationMax := joint.rotationMax;
    }

    function AsJoint(): Joint
    {
      Joint(axis, useRotationMin, rotationMin, useRotationMax, rotationMax)
    }
  }

  /** No two slots of the working array share a node object. */
  ghost predicate Distinct(nodes: seq<CalcNode>)
  {
    forall i, j :: 0 <= i < j < |nodes| ==> nodes[i] != nodes[j]
  }

  function Positions(nodes: seq<CalcNode>): (p: seq<Vector3>)
    reads nodes
    ensures |p| == |nodes|
  {
    seq(|nodes|, i requires 0 <= i < |nodes| reads nodes => nodes[i].position)
  }

  function Rotations(nodes: seq<CalcNode>): (r: seq<Quaternion>)
    reads nodes
    ensures |r| == |nodes|
  {
    seq(|nodes|, i requires 0 <= i < |nodes| reads nodes => nodes[i].rotation)
  }

  function Joints(nodes: seq<CalcNode>): (j: seq<Joint>)
    ensures |j| == |nodes|
  {
    seq(|nodes|, i requires 0 <= i < |nodes| => nodes[i].AsJoint())
  }

  /** Each joint's configuration, in chain order. */
  function Configs(nodes: seq<IKNode>): (j: seq<Joint>)
    ensures |j| == |nodes|
  {
    seq(|nodes|, i requires 0 <= i < |nodes| => nodes[i].AsJoint())
  }

  /** The joints' current world positions, read from their transforms. */
  function TransformPositions(nodes: seq<IKNode>): (p: seq<Vector3>)
    reads set i | 0 <= i < |nodes| :: nodes[i].transform
    ensures |p| == |nodes|
  {
    seq(|nodes|, i requires 0 <= i < |nodes| reads set i | 0 <= i < |nodes| :: nodes[i].transform =>
      nodes[i].transform.position)
  }

  /** The joints' current world rotations, read from their transforms. */
  function TransformRotations(nodes: seq<IKNode>): (r: seq<Quaternion>)
    reads set i | 0 <= i < |nodes| :: nodes[i].transform
    ensures |r| == |nodes|
  {
    seq(|nodes|, i requires 0 <= i < |nodes| reads set i | 0 <= i < |nodes| :: nodes[i].transform =>
      nodes[i].transform.rotation)
  }

  /** The solvers' copy of the chain: one fresh working node per joint, holding the joint's
      transform position and rotation and its configuration. */
  method WorkingCopies(nodes: seq<IKNode>) returns (copies: seq<CalcNode>)
    ensures |copies| == |nodes| && Distinct(copies)
    ensures forall i :: 0 <= i < |copies| ==> fresh(copies[i])
    ensures Positions(copies) == TransformPositions(nodes)
    ensures Rotations(copies) == TransformRotations(nodes)
    ensures Joints(copies) == Configs(nodes)
  {
    copies := [];
    for i := 0 to |nodes|
      invariant |copies| == i && Distinct(copies)
      invariant forall k :: 0 <= k < i ==> fresh(copies[k])
      invariant forall k :: 0 <= k < i ==>
                  copies[k].position == nodes[k].transform.position &&
                  copies[k].rotation == nodes[k].transform.rotation &&
                  copies[k].AsJoint() == nodes[k].AsJoint()
    {
      var node := new CalcNode(nodes[i].transform.position, nodes[i].transform.rotation, nodes[i].AsJoint());
      copies := copies + [node];
    }
  }

  /** The base rotation of the chain: the root's parent's world rotation, or the identity for a
      root without parent. */
  function BaseRotation(root: IKNode): (r: Quaternion)
    reads root.transform, root.transform.parent
    ensures root.transform.parent == null ==> r == Identity
    ensures root.transform.parent != null ==> r == root.transform.parent.rotation
  {
    if root.transform.parent != null then root.transform.parent.rotation else Identity
  }

}
