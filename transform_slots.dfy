// The eight parallel slot lists every transform tweener keeps (one entry per
// tweened transform), bundled as one value so that list-wide operations and
// their invariants can be stated once.

module TransformSlots {
  import opened TweenTypes
  import opened Commands
  import opened TweenValues
  import opened Lifetime
  import opened TransformState
  import opened FastLists
  import opened RecyclePlans

  /** The state record of a new Move slot. */
  function MoveState(useTweenHandle: bool, spaceType: SpaceType): (s: TweenTransformState)
    ensures s.state == StartState(useTweenHandle)
    ensures s.IsMovementEnabled() && !s.IsRotationEnabled() && !s.IsScalingEnabled()
    ensures s.IsMovementInWorldSpace() <==> spaceType == World
    ensures LocalMovement in s.spaceType <==> spaceType == Local
  {
    TweenTransformState(StartState(useTweenHandle), {Movement},
      if spaceType == World then {WorldMovement} else {LocalMovement})
  }

  /** The state record of a new Scale slot: no space flag at all. */
  function ScaleState(useTweenHandle: bool): (s: TweenTransformState)
    ensures s.state == StartState(useTweenHandle)
    ensures !s.IsMovementEnabled() && !s.IsRotationEnabled() && s.IsScalingEnabled()
    ensures s.spaceType == {}
  {
    TweenTransformState(StartState(useTweenHandle), {Scaling}, {})
  }

  datatype SlotLists = SlotLists(
    transforms: seq<Transform>,
    states: seq<TweenTransformState>,
    positions: seq<TweenFloat3>,
    rotations: seq<TweenRotation>,
    scales: seq<TweenFloat3>,
    positionLifetimes: seq<TweenLifetime>,
    rotationLifetimes: seq<TweenLifetime>,
    scaleLifetimes: seq<TweenLifetime>)
  {
    /** One entry per slot in every list. */
    predicate Aligned()
    {
      |states| == |transforms| && |positions| == |transforms| && |rotations| == |transforms|
      && |scales| == |transforms| && |positionLifetimes| == |transforms|
      && |rotationLifetimes| == |transforms| && |scaleLifetimes| == |transforms|
    }

    /** RemoveRange(start, length) on every list. */
    function RemoveRange(start: int, length: int): (r: SlotLists)
      requires Aligned() && 0 <= start && 0 <= length && start + length <= |transforms|
      ensures r.Aligned() && |r.transforms| == |transforms| - length
    {
      SlotLists(RemoveRangeSeq(transforms, start, length), RemoveRangeSeq(states, start, length),
        RemoveRangeSeq(positions, start, length), RemoveRangeSeq(rotations, start, length),
        RemoveRangeSeq(scales, start, length), RemoveRangeSeq(positionLifetimes, start, length),
        RemoveRangeSeq(rotationLifetimes, start, length), RemoveRangeSeq(scaleLifetimes, start, length))
    }

    /** Every removal of `plan`, in order, on every list. */
    function ApplyPlan(plan: seq<Removal>): (r: SlotLists)
      requires Aligned() && PlanFits(plan, |transforms|)
      ensures r.Aligned() && |r.transforms| == |transforms| - TotalLength(plan)
    {
      SlotLists(ApplyRemovals(transforms, plan), ApplyRemovals(states, plan), ApplyRemovals(positions, plan),
        ApplyRemovals(rotations, plan), ApplyRemovals(scales, plan), ApplyRemovals(positionLifetimes, plan),
        ApplyRemovals(rotationLifetimes, plan), ApplyRemovals(scaleLifetimes, plan))
    }

    /** Every list after the recycle pass over the marked slots `marked`. */
    function Recycle(marked: seq<int>): (r: SlotLists)
      requires Aligned() && StrictlyDescending(marked) && forall x | x in marked :: 0 <= x < |transforms|
      ensures r.Aligned()
    {
      SlotLists(Recycled(transforms, marked), Recycled(states, marked), Recycled(positions, marked),
        Recycled(rotations, marked), Recycled(scales, marked), Recycled(positionLifetimes, marked),
        Recycled(rotationLifetimes, marked), Recycled(scaleLifetimes, marked))
    }
  }

  /** Performing the first removal of a plan, then the rest, is performing the plan. */
  lemma ApplyPlanStep(cur: SlotLists, plan: seq<Removal>)
    requires cur.Aligned() && PlanFits(plan, |cur.transforms|) && |plan| > 0
    ensures 0 <= plan[0].start && 0 <= plan[0].length && plan[0].start + plan[0].length <= |cur.transforms|
    ensures PlanFits(plan[1..], |cur.RemoveRange(plan[0].start, plan[0].length).transforms|)
    ensures cur.RemoveRange(plan[0].start, plan[0].length).ApplyPlan(plan[1..]) == cur.ApplyPlan(plan)
  {
    PlanFitsWeakens(plan[1..], plan[0].start, |cur.transforms| - plan[0].length);
  }
}
