// SingleTransformTweener: one slot per tween, kept in parallel lists (the
// handles' list lives in the shared TweenerBase). Update drains the command
// queue and captures started tweens; LateUpdate syncs handles, captures
// completed tweens and runs the recycle pass.

module SingleTweener {
  import opened TweenTypes
  import opened TweenValues
  import opened Lifetime
  import opened TransformState
  import opened Commands
  import opened Handles
  import opened FastLists
  import opened RecyclePlans
  import opened SinglePasses
  import opened TransformSlots

  /** The state record of a new Rotate slot: rotation about all three axes. */
  function RotateState(useTweenHandle: bool, spaceType: SpaceType): (s: TweenTransformState)
    ensures s.state == StartState(useTweenHandle)
    ensures !s.IsMovementEnabled() && s.IsRotationEnabled() && !s.IsScalingEnabled()
    ensures s.IsRotationInWorldSpace() <==> spaceType == World
    ensures s.GetRotateMode() == XYZ
  {
    var space := if spaceType == World then {WorldRotation} else {LocalRotation};
    RotateModeRoundTrip(XYZ, StartState(useTweenHandle), {Rotation}, space);
    TweenTransformState(StartState(useTweenHandle), {Rotation}, space + {RotateModeXYZ})
  }

  /** The state record of a new RotateOnAxis slot: the job reads back the requested axis. */
  function RotateOnAxisState(useTweenHandle: bool, spaceType: SpaceType, rotateMode: RotateMode): (s: TweenTransformState)
    ensures s.state == StartState(useTweenHandle)
    ensures !s.IsMovementEnabled() && s.IsRotationEnabled() && !s.IsScalingEnabled()
    ensures s.IsRotationInWorldSpace() <==> spaceType == World
    ensures s.GetRotateMode() == rotateMode
  {
    var space := if spaceType == World then {WorldRotation} else {LocalRotation};
    RotateModeRoundTrip(rotateMode, StartState(useTweenHandle), {Rotation}, space);
    TweenTransformState(StartState(useTweenHandle), {Rotation}, space + {GetTweenSpaceTypeFromRotateMode(rotateMode)})
  }

  class SingleTransformTweener {
    const base: TweenerBase
    var transforms: seq<Transform>
    var states: seq<TweenTransformState>
    var positions: seq<TweenFloat3>
    var rotations: seq<TweenRotation>
    var scales: seq<TweenFloat3>
    var positionLifetimes: seq<TweenLifetime>
    var rotationLifetimes: seq<TweenLifetime>
    var scaleLifetimes: seq<TweenLifetime>

    /** The parallel lists have one entry per slot, and every listed handle belongs to this tweener. */
    ghost predicate Valid()
      reads this, base, base.handlePool
    {
      base.Valid()
      && |states| == |transforms| && |positions| == |transforms| && |rotations| == |transforms|
      && |scales| == |transforms| && |positionLifetimes| == |transforms|
      && |rotationLifetimes| == |transforms| && |scaleLifetimes| == |transforms|
      && |base.handles| == |transforms|
      && forall h: TweenHandle | h in base.handles :: h.tweenerBase == base
    }

    /** The slot data the passes work on, with the current state of every listed handle. */
    ghost function Frame(): (f: Slots)
      reads this, base`handles, base.HandleSet()
      requires |states| == |base.handles| && |positionLifetimes| == |base.handles|
      requires |rotationLifetimes| == |base.handles| && |scaleLifetimes| == |base.handles|
      ensures f.Fits(base.handles)
    {
      Slots(states, positionLifetimes, rotationLifetimes, scaleLifetimes, map h | h in base.HandleSet() :: h.state)
    }

    /** The eight slot lists as one value; the handle list is `base.handles`. */
    ghost function Lists(): SlotLists
      reads this
    {
      SlotLists(transforms, states, positions, rotations, scales, positionLifetimes, rotationLifetimes,
        scaleLifetimes)
    }

    constructor ()
      ensures Valid() && fresh(base)
      ensures transforms == [] && base.handles == [] && base.handlePool == [] && base.actionQueue == []
      ensures !base.isJobScheduled
    {
      base := new TweenerBase();
      transforms := [];
      states := [];
      positions := [];
      rotations := [];
      scales := [];
      positionLifetimes := [];
      rotationLifetimes := [];
      scaleLifetimes := [];
    }

    /**
     * Appends one slot to every list, with its handle entry (null when the
     * tween needs no handle); the handle is returned only when asked for.
     */
    method AddSlot(target: Transform, state: TweenTransformState, position: TweenFloat3, rotation: TweenRotation,
                   scale: TweenFloat3, positionLifetime: TweenLifetime, rotationLifetime: TweenLifetime,
                   scaleLifetime: TweenLifetime, onStart: Option<Listener>, onComplete: Option<Listener>,
                   useTweenHandle: bool) returns (tweenHandle: TweenHandle?)
      requires Valid()
      modifies this, base`handlePool, base`handles, if |base.handlePool| > 0 then {base.handlePool[0]} else {}
      ensures Valid()
      ensures transforms == old(transforms) + [target] && states == old(states) + [state]
      ensures positions == old(positions) + [position] && rotations == old(rotations) + [rotation]
      ensures scales == old(scales) + [scale]
      ensures positionLifetimes == old(positionLifetimes) + [positionLifetime]
      ensures rotationLifetimes == old(rotationLifetimes) + [rotationLifetime]
      ensures scaleLifetimes == old(scaleLifetimes) + [scaleLifetime]
      ensures |base.handles| == old(|base.handles|) + 1 && base.handles[..old(|base.handles|)] == old(base.handles)
      ensures base.handles[|base.handles| - 1] != null <==> useTweenHandle || onStart.Some? || onComplete.Some?
      ensures tweenHandle == (if useTweenHandle then base.handles[|base.handles| - 1] else null)
    {
      var entry := base.AttachHandle(onStart, onComplete, useTweenHandle);
      AppendSlotData(target, state, position, rotation, scale, positionLifetime, rotationLifetime, scaleLifetime);
      base.handles := base.handles + [entry];
      tweenHandle := if useTweenHandle then entry else null;
    }

    /** Appends one entry to each of the eight slot lists. */
    method AppendSlotData(target: Transform, state: TweenTransformState, position: TweenFloat3, rotation: TweenRotation,
                          scale: TweenFloat3, positionLifetime: TweenLifetime, rotationLifetime: TweenLifetime,
                          scaleLifetime: TweenLifetime)
      modifies this`transforms, this`states, this`positions, this`rotations, this`scales
      modifies this`positionLifetimes, this`rotationLifetimes, this`scaleLifetimes
      ensures transforms == old(transforms) + [target] && states == old(states) + [state]
      ensures positions == old(positions) + [position] && rotations == old(rotations) + [rotation]
      ensures scales == old(scales) + [scale]
      ensures positionLifetimes == old(positionLifetimes) + [positionLifetime]
      ensures rotationLifetimes == old(rotationLifetimes) + [rotationLifetime]
      ensures scaleLifetimes == old(scaleLifetimes) + [scaleLifetime]
    {
      transforms := transforms + [target];
      states := states + [state];
      positions := positions + [position];
      rotations := rotations + [rotation];
      scales := scales + [scale];
      positionLifetimes := positionLifetimes + [positionLifetime];
      rotationLifetimes := rotationLifetimes + [rotationLifetime];
      scaleLifetimes := scaleLifetimes + [scaleLifetime];
    }

    /** Tweens `target`'s position from `from` to `to`. */
    method Move(target: Transform, from: Float3, to: Float3, duration: real, spaceType: SpaceType,
                easeType: EaseType, loopType: LoopType, loopCount: int, onStart: Option<Listener>,
                onComplete: Option<Listener>, useTweenHandle: bool) returns (tweenHandle: TweenHandle?)
      requires Valid()
      modifies this, base`handlePool, base`handles, if |base.handlePool| > 0 then {base.handlePool[0]} else {}
      ensures Valid() && |transforms| == old(|transforms|) + 1
      ensures transforms == old(transforms) + [target]
      ensures states == old(states) + [MoveState(useTweenHandle, spaceType)]
      ensures positions == old(positions) + [TweenFloat3(from, to)]
      ensures rotations == old(rotations) + [DefaultTweenRotation] && scales == old(scales) + [DefaultTweenFloat3]
      ensures positionLifetimes == old(positionLifetimes) + [NewLifetime(duration, easeType, loopType, loopCount)]
      ensures rotationLifetimes == old(rotationLifetimes) + [DefaultLifetime]
      ensures scaleLifetimes == old(scaleLifetimes) + [DefaultLifetime]
      ensures base.handles[..old(|base.handles|)] == old(base.handles)
      ensures base.handles[|base.handles| - 1] != null <==> useTweenHandle || onStart.Some? || onComplete.Some?
      ensures tweenHandle == (if useTweenHandle then base.handles[|base.handles| - 1] else null)
    {
      tweenHandle := AddSlot(target, MoveState(useTweenHandle, spaceType), TweenFloat3(from, to), DefaultTweenRotation,
        DefaultTweenFloat3, NewLifetime(duration, easeType, loopType, loopCount), DefaultLifetime, DefaultLifetime,
        onStart, onComplete, useTweenHandle);
    }

    /** Tweens `target`'s local scale from `from` to `to`. */
    method Scale(target: Transform, from: Float3, to: Float3, duration: real, easeType: EaseType,
                 loopType: LoopType, loopCount: int, onStart: Option<Listener>, onComplete: Option<Listener>,
                 useTweenHandle: bool) returns (tweenHandle: TweenHandle?)
      requires Valid()
      modifies this, base`handlePool, base`handles, if |base.handlePool| > 0 then {base.handlePool[0]} else {}
      ensures Valid() && |transforms| == old(|transforms|) + 1
      ensures transforms == old(transforms) + [target]
      ensures states == old(states) + [ScaleState(useTweenHandle)]
      ensures positions == old(positions) + [DefaultTweenFloat3]
      ensures rotations == old(rotations) + [DefaultTweenRotation] && scales == old(scales) + [TweenFloat3(from, to)]
      ensures positionLifetimes == old(positionLifetimes) + [DefaultLifetime]
      ensures rotationLifetimes == old(rotationLifetimes) + [DefaultLifetime]
      ensures scaleLifetimes == old(scaleLifetimes) + [NewLifetime(duration, easeType, loopType, loopCount)]
      ensures base.handles[..old(|base.handles|)] == old(base.handles)
      ensures base.handles[|base.handles| - 1] != null <==> useTweenHandle || onStart.Some? || onComplete.Some?
      ensures tweenHandle == (if useTweenHandle then base.handles[|base.handles| - 1] else null)
    {
      tweenHandle := AddSlot(target, ScaleState(useTweenHandle), DefaultTweenFloat3, DefaultTweenRotation,
        TweenFloat3(from, to), DefaultLifetime, DefaultLifetime, NewLifetime(duration, easeType, loopType, loopCount),
        onStart, onComplete, useTweenHandle);
    }

    /** Tweens `target`'s rotation from `from` to `to`. */
    method Rotate(target: Transform, from: Quaternion, to: Quaternion, duration: real, spaceType: SpaceType,
                  easeType: EaseType, loopType: LoopType, loopCount: int, onStart: Option<Listener>,
                  onComplete: Option<Listener>, useTweenHandle: bool) returns (tweenHandle: TweenHandle?)
      requires Valid()
      modifies this, base`handlePool, base`handles, if |base.handlePool| > 0 then {base.handlePool[0]} else {}
      ensures Valid() && |transforms| == old(|transforms|) + 1
      ensures transforms == old(transforms) + [target]
      ensures states == old(states) + [RotateState(useTweenHandle, spaceType)]
      ensures positions == old(positions) + [DefaultTweenFloat3]
      ensures rotations == old(rotations) + [TweenRotation(from, to, 0.0)] && scales == old(scales) + [DefaultTweenFloat3]
      ensures positionLifetimes == old(positionLifetimes) + [DefaultLifetime]
      ensures rotationLifetimes == old(rotationLifetimes) + [NewLifetime(duration, easeType, loopType, loopCount)]
      ensures scaleLifetimes == old(scaleLifetimes) + [DefaultLifetime]
      ensures base.handles[..old(|base.handles|)] == old(base.handles)
      ensures base.handles[|base.handles| - 1] != null <==> useTweenHandle || onStart.Some? || onComplete.Some?
      ensures tweenHandle == (if useTweenHandle then base.handles[|base.handles| - 1] else null)
    {
      tweenHandle := AddSlot(target, RotateState(useTweenHandle, spaceType), DefaultTweenFloat3,
        TweenRotation(from, to, 0.0), DefaultTweenFloat3, DefaultLifetime,
        NewLifetime(duration, easeType, loopType, loopCount), DefaultLifetime, onStart, onComplete, useTweenHandle);
    }

    /**
     * Rotates `target` by `angle` about one axis, starting from its current
     * Euler angles in the chosen space (read through `eulerAngles`).
     */
    method RotateOnAxis(target: Transform, angle: real, duration: real, rotateMode: RotateMode, spaceType: SpaceType,
                        easeType: EaseType, loopType: LoopType, loopCount: int, onStart: Option<Listener>,
                        onComplete: Option<Listener>, useTweenHandle: bool,
                        eulerAngles: (Transform, SpaceType) -> Float3) returns (tweenHandle: TweenHandle?)
      requires Valid() && rotateMode != XYZ
      modifies this, base`handlePool, base`handles, if |base.handlePool| > 0 then {base.handlePool[0]} else {}
      ensures Valid() && |transforms| == old(|transforms|) + 1
      ensures transforms == old(transforms) + [target]
      ensures states == old(states) + [RotateOnAxisState(useTweenHandle, spaceType, rotateMode)]
      ensures positions == old(positions) + [DefaultTweenFloat3]
      ensures var e := eulerAngles(target, spaceType);
        rotations == old(rotations) + [TweenRotation(Quaternion(e.x, e.y, e.z, 0.0), ZeroQuaternion, angle)]
      ensures scales == old(scales) + [DefaultTweenFloat3]
      ensures positionLifetimes == old(positionLifetimes) + [DefaultLifetime]
      ensures rotationLifetimes == old(rotationLifetimes) + [NewLifetime(duration, easeType, loopType, loopCount)]
      ensures scaleLifetimes == old(scaleLifetimes) + [DefaultLifetime]
      ensures base.handles[..old(|base.handles|)] == old(base.handles)
      ensures base.handles[|base.handles| - 1] != null <==> useTweenHandle || onStart.Some? || onComplete.Some?
      ensures tweenHandle == (if useTweenHandle then base.handles[|base.handles| - 1] else null)
    {
      var e := eulerAngles(target, spaceType);
      tweenHandle := AddSlot(target, RotateOnAxisState(useTweenHandle, spaceType, rotateMode), DefaultTweenFloat3,
        TweenRotation(Quaternion(e.x, e.y, e.z, 0.0), ZeroQuaternion, angle), DefaultTweenFloat3, DefaultLifetime,
        NewLifetime(duration, easeType, loopType, loopCount), DefaultLifetime, onStart, onComplete, useTweenHandle);
    }

    /**
     * The queued commands, oldest first. Completes exactly when DrainFrom
     * does and then leaves the slot data and handle states it computes; when
     * a command throws the remaining state is not specified.
     */
    method DrainActions() returns (ok: bool)
      requires Valid()
      modifies this`states, this`positionLifetimes, this`rotationLifetimes, this`scaleLifetimes
      modifies base`actionQueue, base.HandleSet()`state
      ensures Valid()
      ensures var d := old(DrainFrom(Frame(), base.handles, base.actionQueue));
        ok <==> d.Some?
      ensures ok ==> Frame() == old(DrainFrom(Frame(), base.handles, base.actionQueue)).value && base.actionQueue == []
    {
      ghost var target := DrainFrom(Frame(), base.handles, base.actionQueue);
      while |base.actionQueue| > 0
        invariant Valid()
        invariant DrainFrom(Frame(), base.handles, base.actionQueue) == target
        decreases |base.actionQueue|
      {
        ghost var queue := base.actionQueue;
        var action := base.actionQueue[0];
        base.actionQueue := base.actionQueue[1..];
        ghost var before := Frame();
        var handled := ApplyHandleAction(action, before);
        if !handled {
          return false;
        }
        assert queue == [action] + base.actionQueue;
        assert DrainFrom(before, base.handles, queue) == DrainFrom(Frame(), base.handles, base.actionQueue);
      }
      return true;
    }

    /**
     * One dequeued command, as DrainStep states it. An index outside the slot
     * list is dropped with a warning; false where the tweener throws
     * (NoAction, or a slot without a handle).
     */
    method ApplyHandleAction(action: TweenHandleAction, ghost before: Slots) returns (ok: bool)
      requires Valid() && before == Frame()
      modifies this`states, this`positionLifetimes, this`rotationLifetimes, this`scaleLifetimes
      modifies base.HandleSet()`state
      ensures Valid()
      ensures ok <==> DrainStep(before, base.handles, action).Some?
      ensures ok ==> Frame() == DrainStep(before, base.handles, action).value
    {
      if !(0 <= action.index < |base.handles|) {
        return true;
      }
      var i := action.index;
      var tweenHandle := base.handles[i];
      var applied := ApplyAction(states[i].state, action.actionType);
      if applied.None? {
        // NotImplementedException
        return false;
      }
      if action.actionType == Rewind || action.actionType == Restart {
        RewindTransformLifetimes(i);
      }
      if tweenHandle == null {
        // NullReferenceException writing the handle's state
        return false;
      }
      tweenHandle.state := applied.value;
      states := states[i := states[i].(state := applied.value)];
      ghost var handleStates := map h | h in base.HandleSet() :: h.state;
      MapUpdateOne(before.handleStates, handleStates, tweenHandle);
      assert Frame() == DrainStep(before, base.handles, action).value;
      return true;
    }

    /** RewindTransformLifetimes: restarts slot `index`'s three clocks. */
    method RewindTransformLifetimes(index: int)
      requires Valid() && 0 <= index < |transforms|
      modifies this`positionLifetimes, this`rotationLifetimes, this`scaleLifetimes
      ensures Valid()
      ensures positionLifetimes == old(positionLifetimes[index := positionLifetimes[index].Restart()])
      ensures rotationLifetimes == old(rotationLifetimes[index := rotationLifetimes[index].Restart()])
      ensures scaleLifetimes == old(scaleLifetimes[index := scaleLifetimes[index].Restart()])
    {
      positionLifetimes := positionLifetimes[index := positionLifetimes[index].Restart()];
      rotationLifetimes := rotationLifetimes[index := rotationLifetimes[index].Restart()];
      scaleLifetimes := scaleLifetimes[index := scaleLifetimes[index].Restart()];
    }

    /**
     * The start capture of UpdateTweens, as StartPass states it over every
     * slot; returns the handles whose Started listeners are then invoked, in
     * slot order.
     */
    method CaptureStarts() returns (started: seq<TweenHandle>)
      requires Valid()
      modifies this`states, base.HandleSet()`state
      ensures Valid()
      ensures Frame() == old(StartPass(Frame(), base.handles, |base.handles|)).slots
      ensures started == old(StartPass(Frame(), base.handles, |base.handles|)).started
    {
      ghost var f0 := Frame();
      started := [];
      var i := 0;
      while i < |states|
        invariant Valid() && 0 <= i <= |states|
        invariant StartPass(f0, base.handles, i) == StartResult(Frame(), started)
      {
        ghost var before := StartResult(Frame(), started);
        var tweenState := states[i];
        if tweenState.IsPlaying() && tweenState.JustStarted() {
          tweenState := tweenState.(state := tweenState.state - {StateFlag.JustStarted});
          states := states[i := tweenState];
          var tweenHandle := base.handles[i];
          if tweenHandle != null {
            tweenHandle.state := tweenState.state;
            started := started + [tweenHandle];
          }
        }
        assert StartResult(Frame(), started) == StartStep(before, base.handles, i);
        i := i + 1;
      }
    }

    /**
     * The completion pass of LateUpdateTweens, from the last slot down, as
     * LateOutcome states it: the slots it marks for recycling (highest first)
     * and the handles whose Completed listeners are due.
     */
    method CaptureCompletions() returns (marked: seq<int>, ended: seq<TweenHandle>)
      requires Valid()
      modifies this`states, base.HandleSet()`state
      ensures Valid()
      ensures Frame() == old(LateOutcome(Frame(), base.handles)).slots
      ensures marked == old(LateOutcome(Frame(), base.handles)).marked
      ensures ended == old(LateOutcome(Frame(), base.handles)).ended
    {
      ghost var f0 := Frame();
      marked, ended := [], [];
      var i := |states| - 1;
      while i >= 0
        invariant Valid() && -1 <= i < |states|
        invariant LatePass(LateResult(Frame(), marked, ended), base.handles, i + 1) == LateOutcome(f0, base.handles)
      {
        marked, ended := CompleteSlot(i, marked, ended);
        i := i - 1;
      }
    }

    /** Slot `i` of the completion pass, as LateStep states it. */
    method CompleteSlot(i: int, marked: seq<int>, ended: seq<TweenHandle>)
      returns (marked': seq<int>, ended': seq<TweenHandle>)
      requires Valid() && 0 <= i < |states|
      modifies this`states, base.HandleSet()`state
      ensures Valid()
      ensures LateResult(Frame(), marked', ended') == old(LateStep(LateResult(Frame(), marked, ended), base.handles, i))
    {
      marked', ended' := marked, ended;
      var tweenState := states[i];
      var tweenHandle := base.handles[i];
      if tweenHandle != null {
        tweenHandle.state := tweenState.state;
      }
      if tweenState.IsCompleted() {
        if tweenState.JustEnded() {
          tweenState := tweenState.(state := tweenState.state - {StateFlag.JustEnded});
          states := states[i := tweenState];
          if tweenHandle != null {
            tweenHandle.state := tweenState.state;
            ended' := ended' + [tweenHandle];
          }
        }
        if |marked'| <= CompletedIndexLimit && tweenState.RequiresRecycling() {
          marked' := marked' + [i];
        }
      }
    }

    /** RemoveRange(start, length) on every slot list. */
    method RemoveSlots(start: int, length: int)
      requires Lists().Aligned() && |base.handles| == |transforms|
      requires 0 <= start && 0 <= length && start + length <= |transforms|
      modifies this`transforms, this`states, this`positions, this`rotations, this`scales
      modifies this`positionLifetimes, this`rotationLifetimes, this`scaleLifetimes, base`handles
      ensures Lists() == old(Lists().RemoveRange(start, length))
      ensures base.handles == RemoveRangeSeq(old(base.handles), start, length)
    {
      transforms := RemoveRangeSeq(transforms, start, length);
      states := RemoveRangeSeq(states, start, length);
      positions := RemoveRangeSeq(positions, start, length);
      rotations := RemoveRangeSeq(rotations, start, length);
      scales := RemoveRangeSeq(scales, start, length);
      positionLifetimes := RemoveRangeSeq(positionLifetimes, start, length);
      rotationLifetimes := RemoveRangeSeq(rotationLifetimes, start, length);
      scaleLifetimes := RemoveRangeSeq(scaleLifetimes, start, length);
      base.handles := RemoveRangeSeq(base.handles, start, length);
    }

    /**
     * The recycle pass over the slots marked this frame (highest first), as
     * written: every slot list becomes Recycled over the frame's window of
     * marks, and the tweener stays valid.
     */
    method RecycleMarked(marked: seq<int>)
      requires Valid() && StrictlyDescending(marked) && forall x | x in marked :: 0 <= x < |transforms|
      modifies this`transforms, this`states, this`positions, this`rotations, this`scales
      modifies this`positionLifetimes, this`rotationLifetimes, this`scaleLifetimes, base`handles
      ensures Valid()
      ensures Lists() == old(Lists()).Recycle(RecycleWindow(marked))
      ensures base.handles == Recycled(old(base.handles), RecycleWindow(marked))
    {
      ghost var v := RecycleWindow(marked);
      ghost var target := Lists().Recycle(v);
      ghost var targetHandles := Recycled(base.handles, v);
      RecyclePlanFits(v, |transforms|);
      RecycledKeepsEntries(base.handles, v);
      if |marked| == 0 {
        return;
      }
      // the reversed copy is visited from its top down to indexEnd: marked[0 .. last]
      var indexEnd := IntMax(|marked| - 1 - RecycleAmountPerFrame, 0);
      var last := |marked| - 1 - indexEnd;
      RecycleRuns(marked, last, v, target, targetHandles);
    }

    /** The visiting loop of the recycle pass over marked[0 .. last], as the plan of `v` states it. */
    method RecycleRuns(marked: seq<int>, last: int, ghost v: seq<int>, ghost target: SlotLists,
                       ghost targetHandles: seq<TweenHandle?>)
      requires 0 <= last < |marked| && |v| == last + 1 && forall k | 0 <= k <= last :: v[k] == marked[k]
      requires Lists().Aligned() && |base.handles| == |transforms|
      requires PlanFits(PlanFrom(v, -1, 0), |transforms|)
      requires Lists().ApplyPlan(PlanFrom(v, -1, 0)) == target
      requires ApplyRemovals(base.handles, PlanFrom(v, -1, 0)) == targetHandles
      modifies this`transforms, this`states, this`positions, this`rotations, this`scales
      modifies this`positionLifetimes, this`rotationLifetimes, this`scaleLifetimes, base`handles
      ensures Lists() == target && base.handles == targetHandles
    {
      var doRemoveFlag := false;
      var removeEndIndex := -1;
      var removeLength := 0;
      var j := 0;
      while j <= last
        invariant 0 <= j <= last + 1 == |v|
        invariant removeEndIndex != -1 ==> !doRemoveFlag
        invariant Lists().Aligned() && |base.handles| == |transforms|
        invariant PlanFits(PlanFrom(v[j..], removeEndIndex, removeLength), |transforms|)
        invariant Lists().ApplyPlan(PlanFrom(v[j..], removeEndIndex, removeLength)) == target
        invariant ApplyRemovals(base.handles, PlanFrom(v[j..], removeEndIndex, removeLength)) == targetHandles
      {
        assert v[j..][0] == marked[j] && v[j..][1..] == v[j + 1..];
        removeEndIndex, removeLength, doRemoveFlag :=
          VisitMarked(marked[j], j == last, removeEndIndex, removeLength, doRemoveFlag, v[j..]);
        j := j + 1;
      }
      assert v[j..] == [];
    }

    /**
     * One visited index of the recycle pass: it opens a run, extends the open
     * run, or closes it (removing the run's range from every list). The lists
     * with the rest of the plan still applied do not change.
     */
    method VisitMarked(index: int, isLast: bool, removeEndIndex: int, removeLength: int, doRemoveFlag: bool,
                       ghost rest: seq<int>)
      returns (removeEndIndex': int, removeLength': int, doRemoveFlag': bool)
      requires |rest| > 0 && rest[0] == index && (isLast <==> |rest| == 1)
      requires removeEndIndex != -1 ==> !doRemoveFlag
      requires Lists().Aligned() && |base.handles| == |transforms|
      requires PlanFits(PlanFrom(rest, removeEndIndex, removeLength), |transforms|)
      modifies this`transforms, this`states, this`positions, this`rotations, this`scales
      modifies this`positionLifetimes, this`rotationLifetimes, this`scaleLifetimes, base`handles
      ensures removeEndIndex' != -1 ==> !doRemoveFlag'
      ensures Lists().Aligned() && |base.handles| == |transforms|
      ensures PlanFits(PlanFrom(rest[1..], removeEndIndex', removeLength'), |transforms|)
      ensures Lists().ApplyPlan(PlanFrom(rest[1..], removeEndIndex', removeLength'))
        == old(Lists().ApplyPlan(PlanFrom(rest, removeEndIndex, removeLength)))
      ensures ApplyRemovals(base.handles, PlanFrom(rest[1..], removeEndIndex', removeLength'))
        == old(ApplyRemovals(base.handles, PlanFrom(rest, removeEndIndex, removeLength)))
    {
      removeEndIndex', removeLength', doRemoveFlag' := removeEndIndex, removeLength, doRemoveFlag;
      if removeEndIndex' == -1 {
        removeEndIndex' := index;
        doRemoveFlag' := false;
        removeLength' := 1;
        return;
      }
      if index == removeEndIndex' - removeLength' {
        removeLength' := IntMin(removeLength' + 1, RecycleAmountPerFrame);
        if isLast {
          doRemoveFlag' := true;
        }
      } else {
        doRemoveFlag' := true;
      }
      if doRemoveFlag' {
        var removeStartIndex := IntMax(0, removeEndIndex' - removeLength');
        ghost var plan := PlanFrom(rest, removeEndIndex, removeLength);
        assert plan == [Removal(removeStartIndex, removeLength')] + PlanFrom(rest[1..], -1, 0);
        ApplyPlanStep(Lists(), plan);
        PlanFitsWeakens(plan[1..], plan[0].start, |base.handles| - plan[0].length);
        RemoveSlots(removeStartIndex, removeLength');
        removeEndIndex' := -1;
        removeLength' := 0;
      }
    }

    /**
     * UpdateTweens, as UpdateOutcome states it: with no slots nothing
     * happens; otherwise the queue is drained, starts are captured and the
     * job is marked scheduled. Returns the handles whose Started listeners
     * run, in slot order; ok is false where the drain throws.
     */
    method UpdateTweens() returns (ok: bool, started: seq<TweenHandle>)
      requires Valid()
      modifies this`states, this`positionLifetimes, this`rotationLifetimes, this`scaleLifetimes
      modifies base`actionQueue, base`isJobScheduled, base.HandleSet()`state
      ensures Valid()
      ensures var r := old(UpdateOutcome(Frame(), base.handles, base.actionQueue));
        (ok <==> r.Some?) && (ok ==> Frame() == r.value.slots && started == r.value.started)
      ensures old(|transforms|) == 0 ==>
        base.actionQueue == old(base.actionQueue) && base.isJobScheduled == old(base.isJobScheduled)
      ensures old(|transforms|) > 0 && ok ==> base.actionQueue == [] && base.isJobScheduled
    {
      if |transforms| == 0 {
        return true, [];
      }
      ok := DrainActions();
      if !ok {
        return false, [];
      }
      started := CaptureStarts();
      base.isJobScheduled := true;
    }

    /** The frame's Update: stores the frame's delta time, then runs UpdateTweens. */
    method Update(deltaTime: real) returns (ok: bool, started: seq<TweenHandle>)
      requires Valid()
      modifies this`states, this`positionLifetimes, this`rotationLifetimes, this`scaleLifetimes
      modifies base`actionQueue, base`isJobScheduled, base`deltaTime, base.HandleSet()`state
      ensures Valid() && base.deltaTime == deltaTime
      ensures var r := old(UpdateOutcome(Frame(), base.handles, base.actionQueue));
        (ok <==> r.Some?) && (ok ==> Frame() == r.value.slots && started == r.value.started)
    {
      base.deltaTime := deltaTime;
      ok, started := UpdateTweens();
    }

    /**
     * LateUpdateTweens: nothing unless a job was scheduled. Otherwise clears
     * the flag, runs the completion and recycle passes, returns the handles
     * whose Completed listeners run, in pass order, and puts each back at the
     * end of the pool first.
     */
    method LateUpdateTweens() returns (ended: seq<TweenHandle>)
      requires Valid()
      modifies this`transforms, this`states, this`positions, this`rotations, this`scales
      modifies this`positionLifetimes, this`rotationLifetimes, this`scaleLifetimes
      modifies base`handles, base`handlePool, base`isJobScheduled, base.HandleSet()`state
      ensures Valid()
      ensures !old(base.isJobScheduled) ==>
        ended == [] && Lists() == old(Lists()) && base.handlePool == old(base.handlePool)
        && unchanged(old(base.HandleSet()))
      ensures old(base.isJobScheduled) ==>
        var q := old(LateOutcome(Frame(), base.handles));
        !base.isJobScheduled && ended == q.ended && base.handlePool == old(base.handlePool) + q.ended
        && Lists() == old(Lists()).(states := q.slots.states).Recycle(q.marked)
        && base.handles == Recycled(old(base.handles), q.marked)
        && forall h | h in old(base.HandleSet()) :: h.state == q.slots.handleStates[h]
    {
      if !base.isJobScheduled {
        return [];
      }
      ghost var keys, lists0, handles0 := base.HandleSet(), Lists(), base.handles;
      ghost var q := LateOutcome(Frame(), base.handles);
      base.isJobScheduled := false;
      ended := CompleteAndRecycle(keys, lists0, handles0, q);
      Repool(ended);
    }

    /** The handles of completed tweens go back to the pool, in the order they ended. */
    method Repool(ended: seq<TweenHandle>)
      requires Valid() && forall h | h in ended :: h.tweenerBase == base
      modifies base`handlePool
      ensures Valid() && base.handlePool == old(base.handlePool) + ended
    {
      base.handlePool := base.handlePool + ended;
    }

    /**
     * The completion pass (LateOutcome) followed by the recycle pass over
     * the slots it marked; every handle keeps the state the completion pass
     * gave it.
     */
    method CompleteAndRecycle(ghost keys: set<TweenHandle>, ghost lists0: SlotLists, ghost handles0: seq<TweenHandle?>,
                              ghost q: LateResult) returns (ended: seq<TweenHandle>)
      requires Valid() && keys == base.HandleSet() && lists0 == Lists() && handles0 == base.handles
      requires q == LateOutcome(Frame(), base.handles)
      modifies this`transforms, this`states, this`positions, this`rotations, this`scales
      modifies this`positionLifetimes, this`rotationLifetimes, this`scaleLifetimes
      modifies base`handles, keys`state
      ensures Valid()
      ensures forall h | h in ended :: h.tweenerBase == base
      ensures ended == q.ended
      ensures Lists() == lists0.(states := q.slots.states).Recycle(q.marked)
      ensures base.handles == Recycled(handles0, q.marked)
      ensures forall h | h in keys :: h.state == q.slots.handleStates[h]
    {
      LateOutcomeEndsListed(Frame(), handles0);
      var marked;
      marked, ended := CaptureCompletions();
      assert forall h | h in keys :: h.state == Frame().handleStates[h];
      assert RecycleWindow(marked) == marked;
      RecycleMarked(marked);
    }
  }
}
