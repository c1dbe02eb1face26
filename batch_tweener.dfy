// BatchTransformTweener (newer revision): one batch per call, owning a
// contiguous run of slots in the shared slot lists, with one clock and one
// handle entry per batch. Update drains the command queue batch by batch and
// captures started batches; LateUpdate syncs handles, reports ended batches
// and compacts the slot lists, back to front, removing recycled batches.

module BatchTweener {
  import opened TweenTypes
  import opened TweenValues
  import opened Lifetime
  import opened TransformState
  import opened Commands
  import opened Handles
  import opened FastLists
  import opened BatchState
  import opened TransformSlots
  import opened BatchPasses

  // ----- new slots -----

  /** The state record of a new BatchRotate slot: no rotate-mode flag, so the job rotates about all three axes. */
  function BatchRotateState(useTweenHandle: bool, spaceType: SpaceType): (s: TweenTransformState)
    ensures s.state == StartState(useTweenHandle)
    ensures !s.IsMovementEnabled() && s.IsRotationEnabled() && !s.IsScalingEnabled()
    ensures s.IsRotationInWorldSpace() <==> spaceType == World
    ensures s.GetRotateMode() == XYZ && !s.IsRotationXYZ()
  {
    TweenTransformState(StartState(useTweenHandle), {Rotation},
      if spaceType == World then {WorldRotation} else {LocalRotation})
  }

  /** The state record of a new BatchUpdateTransforms slot: all three channels, movement and rotation in one space. */
  function UpdateTransformsState(useTweenHandle: bool, spaceType: SpaceType): (s: TweenTransformState)
    ensures s.state == StartState(useTweenHandle)
    ensures s.IsMovementEnabled() && s.IsRotationEnabled() && s.IsScalingEnabled()
    ensures s.IsMovementInWorldSpace() <==> spaceType == World
    ensures s.IsRotationInWorldSpace() <==> spaceType == World
    ensures s.GetRotateMode() == XYZ
  {
    TweenTransformState(StartState(useTweenHandle), {Movement, Rotation, Scaling},
      if spaceType == World then {WorldMovement, WorldRotation} else {LocalMovement, LocalRotation})
  }

  /** `n` copies of `x`. */
  function Repeat<T>(x: T, n: nat): (r: seq<T>)
    ensures |r| == n && forall k | 0 <= k < n :: r[k] == x
  {
    if n == 0 then [] else Repeat(x, n - 1) + [x]
  }

  /** One more copy of `x` after `a + Repeat(x, i)`. */
  lemma RepeatSnoc<T>(a: seq<T>, x: T, i: nat)
    ensures (a + Repeat(x, i)) + [x] == a + Repeat(x, i + 1)
  {
    ConcatAssoc(a, Repeat(x, i), [x]);
  }

  /** One more element of `b` after `a + b[..i]`. */
  lemma PrefixSnoc<T>(a: seq<T>, b: seq<T>, i: nat)
    requires i < |b|
    ensures (a + b[..i]) + [b[i]] == a + b[..i + 1]
  {
    assert b[..i + 1] == b[..i] + [b[i]];
    ConcatAssoc(a, b[..i], [b[i]]);
  }

  /** The from/to pairs of a slice of two parallel arrays. */
  function Float3Pairs(from: seq<Float3>, to: seq<Float3>, start: nat, n: nat): (r: seq<TweenFloat3>)
    requires start + n <= |from| && start + n <= |to|
    ensures |r| == n
  {
    seq(n, k requires 0 <= k < n => TweenFloat3(from[start + k], to[start + k]))
  }

  /** The from/to rotation pairs of a slice of two parallel arrays (no axis angle). */
  function RotationPairs(from: seq<Quaternion>, to: seq<Quaternion>, start: nat, n: nat): (r: seq<TweenRotation>)
    requires start + n <= |from| && start + n <= |to|
    ensures |r| == n
  {
    seq(n, k requires 0 <= k < n => TweenRotation(from[start + k], to[start + k], 0.0))
  }

  // ----- the argument check of BatchMove, BatchScale and BatchRotate -----

  /** The check as written: `fromArray` is tested twice and `toArray`, which is indexed too, never. */
  predicate SliceCheckAsWritten(targetsLength: int, fromLength: int, toLength: int, startIndex: int, length: int)
  {
    targetsLength >= startIndex + length && fromLength >= startIndex + length && fromLength >= startIndex + length
  }

  /** Every array the call reads holds the slice `startIndex .. startIndex+length-1`. */
  predicate SliceFits(targetsLength: int, fromLength: int, toLength: int, startIndex: int, length: int)
  {
    targetsLength >= startIndex + length && fromLength >= startIndex + length && toLength >= startIndex + length
  }

  /**
   * The check as written lets a short `toArray` through, which the append
   * loop then indexes past its end; the intended check is the written one
   * plus the missing `toArray` test.
   */
  lemma SliceCheckAsWrittenMissesTo(targetsLength: int, fromLength: int, toLength: int, startIndex: int, length: int)
    ensures SliceCheckAsWritten(1, 1, 0, 0, 1) && !SliceFits(1, 1, 0, 0, 1)
    ensures SliceFits(targetsLength, fromLength, toLength, startIndex, length)
      <==> SliceCheckAsWritten(targetsLength, fromLength, toLength, startIndex, length) && toLength >= startIndex + length
  {
  }

  class BatchTransformTweener {
    const base: TweenerBase
    var batches: seq<TweenTransformBatchState>
    var batchLifetimes: seq<TweenLifetime>
    var transforms: seq<Transform>
    var states: seq<TweenTransformState>
    var positions: seq<TweenFloat3>
    var rotations: seq<TweenRotation>
    var scales: seq<TweenFloat3>
    var positionLifetimes: seq<TweenLifetime>
    var rotationLifetimes: seq<TweenLifetime>
    var scaleLifetimes: seq<TweenLifetime>
    /** The job's native copies of the batch and batch clock lists, made by UpdateTweens and copied back by LateUpdateTweens. */
    var nativeBatches: seq<TweenTransformBatchState>
    var nativeBatchLifetimes: seq<TweenLifetime>

    /** One clock and one handle entry per batch, one entry per slot in every slot list, and the batches tile the slots. */
    ghost predicate Shaped()
      reads this, base`handles
    {
      |states| == |transforms| && |positions| == |transforms| && |rotations| == |transforms|
      && |scales| == |transforms| && |positionLifetimes| == |transforms|
      && |rotationLifetimes| == |transforms| && |scaleLifetimes| == |transforms|
      && |batchLifetimes| == |batches| && |base.handles| == |batches|
      && Tiled(batches, |transforms|)
    }

    /** Shaped, within C#'s `int` range, and every listed handle belongs to this tweener. */
    ghost predicate Valid()
      reads this, base, base.handlePool
    {
      base.Valid() && Shaped() && |transforms| <= IntMax
      && forall h: TweenHandle | h in base.handles :: h.tweenerBase == base
    }

    /** The native copies as one value. */
    function NativeCopy(): JobCopy
      reads this
    {
      JobCopy(nativeBatches, nativeBatchLifetimes)
    }

    /** The native copies still line up with the batch list. */
    ghost predicate JobCopyFits()
      reads this
    {
      CopyFits(NativeCopy(), batches)
    }

    /** The eight slot lists as one value. */
    ghost function Lists(): SlotLists
      reads this
    {
      SlotLists(transforms, states, positions, rotations, scales, positionLifetimes, rotationLifetimes,
        scaleLifetimes)
    }

    /** The data the passes work on, with the current state of every handle in `keys`. */
    ghost function Frame(keys: set<TweenHandle>): (f: BatchData)
      reads this, base`handles, keys
      requires Shaped() && forall h: TweenHandle | h in base.handles :: h in keys
      ensures f.Fits()
    {
      BatchData(batches, batchLifetimes, base.handles, Lists(), map h | h in keys :: h.state)
    }

    constructor ()
      ensures Valid() && fresh(base)
      ensures batches == [] && transforms == [] && base.handles == [] && base.handlePool == []
      ensures base.actionQueue == [] && !base.isJobScheduled
    {
      base := new TweenerBase();
      batches := [];
      batchLifetimes := [];
      transforms := [];
      states := [];
      positions := [];
      rotations := [];
      scales := [];
      positionLifetimes := [];
      rotationLifetimes := [];
      scaleLifetimes := [];
      nativeBatches := [];
      nativeBatchLifetimes := [];
    }

    // ----- batch creation -----

    /**
     * Appends a batch over the next `length` slots, with its clock and its
     * handle entry (null when the batch needs no handle), then appends
     * `targets[startIndex .. startIndex+length-1]` and one entry per slot to
     * every other slot list. The new batch covers exactly the new slots.
     * A negative start index or length throws in `_transforms.AddRange`,
     * after the batch (its length cast to `uint`), its clock and its handle
     * entry were appended and before any slot is.
     */
    method AddBatch(targets: seq<Transform>, startIndex: int, length: int, state: TweenTransformState,
                    newPositions: seq<TweenFloat3>, newRotations: seq<TweenRotation>, newScales: seq<TweenFloat3>,
                    positionLifetime: TweenLifetime, rotationLifetime: TweenLifetime, scaleLifetime: TweenLifetime,
                    batchLifetime: TweenLifetime, onStart: Option<Listener>, onComplete: Option<Listener>,
                    useTweenHandle: bool) returns (tweenHandle: TweenHandle?, thrown: bool)
      requires Valid() && startIndex + length <= |targets| && |transforms| + length <= IntMax
      requires 0 <= startIndex && 0 <= length ==>
        |newPositions| == length && |newRotations| == length && |newScales| == length
      modifies this`batches, this`batchLifetimes, this`transforms, this`states, this`positions, this`rotations
      modifies this`scales, this`positionLifetimes, this`rotationLifetimes, this`scaleLifetimes
      modifies base`handlePool, base`handles, if |base.handlePool| > 0 then {base.handlePool[0]} else {}
      ensures thrown <==> startIndex < 0 || length < 0
      ensures batches == old(batches) + [TweenTransformBatchState(old(|transforms|), UintCast(length),
        StartState(useTweenHandle))]
      ensures batchLifetimes == old(batchLifetimes) + [batchLifetime]
      ensures |base.handles| == old(|base.handles|) + 1 && base.handles[..old(|base.handles|)] == old(base.handles)
      ensures base.handles[|base.handles| - 1] != null <==> useTweenHandle || onStart.Some? || onComplete.Some?
      ensures thrown ==> Lists() == old(Lists())
      ensures !thrown ==> Valid()
      ensures !thrown ==> transforms == old(transforms) + targets[startIndex..startIndex + length]
      ensures !thrown ==> states == old(states) + Repeat(state, length)
      ensures !thrown ==> positions == old(positions) + newPositions && rotations == old(rotations) + newRotations
      ensures !thrown ==> scales == old(scales) + newScales
      ensures !thrown ==> positionLifetimes == old(positionLifetimes) + Repeat(positionLifetime, length)
      ensures !thrown ==> rotationLifetimes == old(rotationLifetimes) + Repeat(rotationLifetime, length)
      ensures !thrown ==> scaleLifetimes == old(scaleLifetimes) + Repeat(scaleLifetime, length)
      ensures !thrown ==> tweenHandle == (if useTweenHandle then base.handles[|base.handles| - 1] else null)
      ensures old(JobCopyFits()) ==> JobCopyFits()
    {
      var batch := TweenTransformBatchState(|transforms|, UintCast(length), StartState(useTweenHandle));
      var entry := base.AttachHandle(onStart, onComplete, useTweenHandle);
      if startIndex < 0 || length < 0 {
        AppendBatchEntry(batch, batchLifetime, entry, []);
        assert transforms == old(transforms) + [];
        return null, true;
      }
      AppendBatch(batch, batchLifetime, entry, targets[startIndex..startIndex + length], state, newPositions,
        newRotations, newScales, positionLifetime, rotationLifetime, scaleLifetime);
      tweenHandle, thrown := if useTweenHandle then entry else null, false;
    }

    /** The successful part of batch creation: the batch entry and its slots join their lists. */
    method AppendBatch(batch: TweenTransformBatchState, batchLifetime: TweenLifetime, entry: TweenHandle?,
                       newTransforms: seq<Transform>, state: TweenTransformState, newPositions: seq<TweenFloat3>,
                       newRotations: seq<TweenRotation>, newScales: seq<TweenFloat3>, positionLifetime: TweenLifetime,
                       rotationLifetime: TweenLifetime, scaleLifetime: TweenLifetime)
      requires Valid() && (entry != null ==> entry.tweenerBase == base)
      requires batch.startIndex == |transforms| && batch.length == |newTransforms| <= IntMax - |transforms|
      requires |newPositions| == |newTransforms| && |newRotations| == |newTransforms| && |newScales| == |newTransforms|
      modifies this`batches, this`batchLifetimes, this`transforms, this`states, this`positions, this`rotations
      modifies this`scales, this`positionLifetimes, this`rotationLifetimes, this`scaleLifetimes, base`handles
      ensures Valid() && (old(JobCopyFits()) ==> JobCopyFits())
      ensures batches == old(batches) + [batch] && batchLifetimes == old(batchLifetimes) + [batchLifetime]
      ensures base.handles == old(base.handles) + [entry] && transforms == old(transforms) + newTransforms
      ensures states == old(states) + Repeat(state, |newTransforms|)
      ensures positions == old(positions) + newPositions && rotations == old(rotations) + newRotations
      ensures scales == old(scales) + newScales
      ensures positionLifetimes == old(positionLifetimes) + Repeat(positionLifetime, |newTransforms|)
      ensures rotationLifetimes == old(rotationLifetimes) + Repeat(rotationLifetime, |newTransforms|)
      ensures scaleLifetimes == old(scaleLifetimes) + Repeat(scaleLifetime, |newTransforms|)
    {
      TiledAppend(batches, |transforms|, batch);
      AppendBatchEntry(batch, batchLifetime, entry, newTransforms);
      AppendSlotData(state, newPositions, newRotations, newScales, positionLifetime, rotationLifetime, scaleLifetime);
    }

    /** The new batch's entry, clock and handle entry, and its transforms, join their lists. */
    method AppendBatchEntry(batch: TweenTransformBatchState, batchLifetime: TweenLifetime, entry: TweenHandle?,
                            newTransforms: seq<Transform>)
      modifies this`batches, this`batchLifetimes, this`transforms, base`handles
      ensures batches == old(batches) + [batch] && batchLifetimes == old(batchLifetimes) + [batchLifetime]
      ensures base.handles == old(base.handles) + [entry] && transforms == old(transforms) + newTransforms
      ensures old(JobCopyFits()) ==> JobCopyFits()
    {
      if JobCopyFits() {
        CopyFitsAfterAppend(NativeCopy(), batches, batch);
      }
      batches := batches + [batch];
      batchLifetimes := batchLifetimes + [batchLifetime];
      base.handles := base.handles + [entry];
      transforms := transforms + newTransforms;
    }

    /** The per-slot loop of batch creation: one entry per new slot in the seven lists besides the transforms. */
    method AppendSlotData(state: TweenTransformState, newPositions: seq<TweenFloat3>, newRotations: seq<TweenRotation>,
                          newScales: seq<TweenFloat3>, positionLifetime: TweenLifetime,
                          rotationLifetime: TweenLifetime, scaleLifetime: TweenLifetime)
      requires |newRotations| == |newPositions| && |newScales| == |newPositions|
      modifies this`states, this`positions, this`rotations, this`scales
      modifies this`positionLifetimes, this`rotationLifetimes, this`scaleLifetimes
      ensures states == old(states) + Repeat(state, |newPositions|)
      ensures positions == old(positions) + newPositions && rotations == old(rotations) + newRotations
      ensures scales == old(scales) + newScales
      ensures positionLifetimes == old(positionLifetimes) + Repeat(positionLifetime, |newPositions|)
      ensures rotationLifetimes == old(rotationLifetimes) + Repeat(rotationLifetime, |newPositions|)
      ensures scaleLifetimes == old(scaleLifetimes) + Repeat(scaleLifetime, |newPositions|)
    {
      var i := 0;
      while i < |newPositions|
        invariant 0 <= i <= |newPositions|
        invariant states == old(states) + Repeat(state, i)
        invariant positions == old(positions) + newPositions[..i]
        invariant rotations == old(rotations) + newRotations[..i]
        invariant scales == old(scales) + newScales[..i]
        invariant positionLifetimes == old(positionLifetimes) + Repeat(positionLifetime, i)
        invariant rotationLifetimes == old(rotationLifetimes) + Repeat(rotationLifetime, i)
        invariant scaleLifetimes == old(scaleLifetimes) + Repeat(scaleLifetime, i)
      {
        states := states + [state];
        positions := positions + [newPositions[i]];
        rotations := rotations + [newRotations[i]];
        scales := scales + [newScales[i]];
        positionLifetimes := positionLifetimes + [positionLifetime];
        rotationLifetimes := rotationLifetimes + [rotationLifetime];
        scaleLifetimes := scaleLifetimes + [scaleLifetime];
        RepeatSnoc(old(states), state, i);
        PrefixSnoc(old(positions), newPositions, i);
        PrefixSnoc(old(rotations), newRotations, i);
        PrefixSnoc(old(scales), newScales, i);
        RepeatSnoc(old(positionLifetimes), positionLifetime, i);
        RepeatSnoc(old(rotationLifetimes), rotationLifetime, i);
        RepeatSnoc(old(scaleLifetimes), scaleLifetime, i);
        i := i + 1;
      }
      assert newPositions[..i] == newPositions && newRotations[..i] == newRotations && newScales[..i] == newScales;
    }

    /** BatchMove: tweens the positions of `targets[startIndex ..]` from `fromArray` to `toArray`, as one batch. */
    method BatchMove(targets: seq<Transform>, fromArray: seq<Float3>, toArray: seq<Float3>, startIndex: int, length: int,
                     duration: real, spaceType: SpaceType, easeType: EaseType, loopType: LoopType, loopCount: int,
                     onStart: Option<Listener>, onComplete: Option<Listener>, useTweenHandle: bool)
      returns (tweenHandle: TweenHandle?, thrown: bool)
      requires Valid()
      requires SliceFits(|targets|, |fromArray|, |toArray|, startIndex, length)
      requires |transforms| + length <= IntMax
      modifies this, base`handlePool, base`handles, if |base.handlePool| > 0 then {base.handlePool[0]} else {}
      ensures thrown <==> startIndex < 0 || length < 0
      ensures var lt := NewLifetime(duration, easeType, loopType, loopCount);
        batches == old(batches)
          + [TweenTransformBatchState(old(|transforms|), UintCast(length), StartState(useTweenHandle))]
        && batchLifetimes == old(batchLifetimes) + [lt]
      ensures thrown ==> Lists() == old(Lists())
      ensures !thrown ==> Valid()
      ensures !thrown ==> var lt := NewLifetime(duration, easeType, loopType, loopCount);
        positionLifetimes == old(positionLifetimes) + Repeat(lt, length)
      ensures !thrown ==> transforms == old(transforms) + targets[startIndex..startIndex + length]
      ensures !thrown ==> states == old(states) + Repeat(MoveState(useTweenHandle, spaceType), length)
      ensures !thrown ==> positions == old(positions) + Float3Pairs(fromArray, toArray, startIndex, length)
      ensures !thrown ==> rotations == old(rotations) + Repeat(DefaultTweenRotation, length)
      ensures !thrown ==> scales == old(scales) + Repeat(DefaultTweenFloat3, length)
      ensures !thrown ==> rotationLifetimes == old(rotationLifetimes) + Repeat(DefaultLifetime, length)
      ensures !thrown ==> scaleLifetimes == old(scaleLifetimes) + Repeat(DefaultLifetime, length)
      ensures |base.handles| == old(|base.handles|) + 1 && base.handles[..old(|base.handles|)] == old(base.handles)
      ensures base.handles[|base.handles| - 1] != null <==> useTweenHandle || onStart.Some? || onComplete.Some?
      ensures !thrown ==> tweenHandle == (if useTweenHandle then base.handles[|base.handles| - 1] else null)
      ensures NativeCopy() == old(NativeCopy()) && (old(JobCopyFits()) ==> JobCopyFits())
    {
      var lt := NewLifetime(duration, easeType, loopType, loopCount);
      if startIndex < 0 || length < 0 {
        // the slot data is never read: `_transforms.AddRange` throws first
        tweenHandle, thrown := AddBatch(targets, startIndex, length, MoveState(useTweenHandle, spaceType), [], [], [],
          lt, DefaultLifetime, DefaultLifetime, lt, onStart, onComplete, useTweenHandle);
        return;
      }
      tweenHandle, thrown := AddBatch(targets, startIndex, length, MoveState(useTweenHandle, spaceType),
        Float3Pairs(fromArray, toArray, startIndex, length), Repeat(DefaultTweenRotation, length),
        Repeat(DefaultTweenFloat3, length), lt, DefaultLifetime, DefaultLifetime, lt, onStart, onComplete,
        useTweenHandle);
    }

    /** BatchScale: tweens the local scales of `targets[startIndex ..]` from `fromArray` to `toArray`, as one batch. */
    method BatchScale(targets: seq<Transform>, fromArray: seq<Float3>, toArray: seq<Float3>, startIndex: int,
                      length: int, duration: real, easeType: EaseType, loopType: LoopType, loopCount: int,
                      onStart: Option<Listener>, onComplete: Option<Listener>, useTweenHandle: bool)
      returns (tweenHandle: TweenHandle?, thrown: bool)
      requires Valid()
      requires SliceFits(|targets|, |fromArray|, |toArray|, startIndex, length)
      requires |transforms| + length <= IntMax
      modifies this, base`handlePool, base`handles, if |base.handlePool| > 0 then {base.handlePool[0]} else {}
      ensures thrown <==> startIndex < 0 || length < 0
      ensures var lt := NewLifetime(duration, easeType, loopType, loopCount);
        batches == old(batches)
          + [TweenTransformBatchState(old(|transforms|), UintCast(length), StartState(useTweenHandle))]
        && batchLifetimes == old(batchLifetimes) + [lt]
      ensures thrown ==> Lists() == old(Lists())
      ensures !thrown ==> Valid()
      ensures !thrown ==> var lt := NewLifetime(duration, easeType, loopType, loopCount);
        scaleLifetimes == old(scaleLifetimes) + Repeat(lt, length)
      ensures !thrown ==> transforms == old(transforms) + targets[startIndex..startIndex + length]
      ensures !thrown ==> states == old(states) + Repeat(ScaleState(useTweenHandle), length)
      ensures !thrown ==> positions == old(positions) + Repeat(DefaultTweenFloat3, length)
      ensures !thrown ==> rotations == old(rotations) + Repeat(DefaultTweenRotation, length)
      ensures !thrown ==> scales == old(scales) + Float3Pairs(fromArray, toArray, startIndex, length)
      ensures !thrown ==> positionLifetimes == old(positionLifetimes) + Repeat(DefaultLifetime, length)
      ensures !thrown ==> rotationLifetimes == old(rotationLifetimes) + Repeat(DefaultLifetime, length)
      ensures |base.handles| == old(|base.handles|) + 1 && base.handles[..old(|base.handles|)] == old(base.handles)
      ensures base.handles[|base.handles| - 1] != null <==> useTweenHandle || onStart.Some? || onComplete.Some?
      ensures !thrown ==> tweenHandle == (if useTweenHandle then base.handles[|base.handles| - 1] else null)
      ensures NativeCopy() == old(NativeCopy()) && (old(JobCopyFits()) ==> JobCopyFits())
    {
      var lt := NewLifetime(duration, easeType, loopType, loopCount);
      if startIndex < 0 || length < 0 {
        // the slot data is never read: `_transforms.AddRange` throws first
        tweenHandle, thrown := AddBatch(targets, startIndex, length, ScaleState(useTweenHandle), [], [], [],
          DefaultLifetime, DefaultLifetime, lt, lt, onStart, onComplete, useTweenHandle);
        return;
      }
      tweenHandle, thrown := AddBatch(targets, startIndex, length, ScaleState(useTweenHandle),
        Repeat(DefaultTweenFloat3, length), Repeat(DefaultTweenRotation, length),
        Float3Pairs(fromArray, toArray, startIndex, length), DefaultLifetime, DefaultLifetime, lt, lt, onStart,
        onComplete, useTweenHandle);
    }

    /** BatchRotate: tweens the rotations of `targets[startIndex ..]` from `fromArray` to `toArray`, as one batch. */
    method BatchRotate(targets: seq<Transform>, fromArray: seq<Quaternion>, toArray: seq<Quaternion>, startIndex: int,
                       length: int, duration: real, spaceType: SpaceType, easeType: EaseType, loopType: LoopType,
                       loopCount: int, onStart: Option<Listener>, onComplete: Option<Listener>, useTweenHandle: bool)
      returns (tweenHandle: TweenHandle?, thrown: bool)
      requires Valid()
      requires SliceFits(|targets|, |fromArray|, |toArray|, startIndex, length)
      requires |transforms| + length <= IntMax
      modifies this, base`handlePool, base`handles, if |base.handlePool| > 0 then {base.handlePool[0]} else {}
      ensures thrown <==> startIndex < 0 || length < 0
      ensures var lt := NewLifetime(duration, easeType, loopType, loopCount);
        batches == old(batches)
          + [TweenTransformBatchState(old(|transforms|), UintCast(length), StartState(useTweenHandle))]
        && batchLifetimes == old(batchLifetimes) + [lt]
      ensures thrown ==> Lists() == old(Lists())
      ensures !thrown ==> Valid()
      ensures !thrown ==> var lt := NewLifetime(duration, easeType, loopType, loopCount);
        rotationLifetimes == old(rotationLifetimes) + Repeat(lt, length)
      ensures !thrown ==> transforms == old(transforms) + targets[startIndex..startIndex + length]
      ensures !thrown ==> states == old(states) + Repeat(BatchRotateState(useTweenHandle, spaceType), length)
      ensures !thrown ==> positions == old(positions) + Repeat(DefaultTweenFloat3, length)
      ensures !thrown ==> rotations == old(rotations) + RotationPairs(fromArray, toArray, startIndex, length)
      ensures !thrown ==> scales == old(scales) + Repeat(DefaultTweenFloat3, length)
      ensures !thrown ==> positionLifetimes == old(positionLifetimes) + Repeat(DefaultLifetime, length)
      ensures !thrown ==> scaleLifetimes == old(scaleLifetimes) + Repeat(DefaultLifetime, length)
      ensures |base.handles| == old(|base.handles|) + 1 && base.handles[..old(|base.handles|)] == old(base.handles)
      ensures base.handles[|base.handles| - 1] != null <==> useTweenHandle || onStart.Some? || onComplete.Some?
      ensures !thrown ==> tweenHandle == (if useTweenHandle then base.handles[|base.handles| - 1] else null)
      ensures NativeCopy() == old(NativeCopy()) && (old(JobCopyFits()) ==> JobCopyFits())
    {
      var lt := NewLifetime(duration, easeType, loopType, loopCount);
      if startIndex < 0 || length < 0 {
        // the slot data is never read: `_transforms.AddRange` throws first
        tweenHandle, thrown := AddBatch(targets, startIndex, length, BatchRotateState(useTweenHandle, spaceType), [], [],
          [], DefaultLifetime, lt, DefaultLifetime, lt, onStart, onComplete, useTweenHandle);
        return;
      }
      tweenHandle, thrown := AddBatch(targets, startIndex, length, BatchRotateState(useTweenHandle, spaceType),
        Repeat(DefaultTweenFloat3, length), RotationPairs(fromArray, toArray, startIndex, length),
        Repeat(DefaultTweenFloat3, length), DefaultLifetime, lt, DefaultLifetime, lt, onStart, onComplete,
        useTweenHandle);
    }

    /**
     * BatchUpdateTransforms: tweens position, rotation and scale of
     * `targets[startIndex ..]` at once; each slot's three clocks start as
     * copies of one lifetime.
     */
    method BatchUpdateTransforms(targets: seq<Transform>, fromPosArray: seq<Float3>, toPosArray: seq<Float3>,
                                 fromRotArray: seq<Quaternion>, toRotArray: seq<Quaternion>,
                                 fromScaleArray: seq<Float3>, toScaleArray: seq<Float3>, startIndex: int, length: int,
                                 duration: real, spaceType: SpaceType, easeType: EaseType, loopType: LoopType,
                                 loopCount: int, onStart: Option<Listener>, onComplete: Option<Listener>,
                                 useTweenHandle: bool) returns (tweenHandle: TweenHandle?, thrown: bool)
      requires Valid()
      requires SliceFits(|targets|, |fromPosArray|, |toPosArray|, startIndex, length)
      requires SliceFits(|fromRotArray|, |toRotArray|, |fromScaleArray|, startIndex, length)
      requires |toScaleArray| >= startIndex + length
      requires |transforms| + length <= IntMax
      modifies this, base`handlePool, base`handles, if |base.handlePool| > 0 then {base.handlePool[0]} else {}
      ensures thrown <==> startIndex < 0 || length < 0
      ensures var lt := NewLifetime(duration, easeType, loopType, loopCount);
        batches == old(batches)
          + [TweenTransformBatchState(old(|transforms|), UintCast(length), StartState(useTweenHandle))]
        && batchLifetimes == old(batchLifetimes) + [lt]
      ensures thrown ==> Lists() == old(Lists())
      ensures !thrown ==> Valid()
      ensures !thrown ==> var lt := NewLifetime(duration, easeType, loopType, loopCount);
        positionLifetimes == old(positionLifetimes) + Repeat(lt, length)
        && rotationLifetimes == old(rotationLifetimes) + Repeat(lt, length)
        && scaleLifetimes == old(scaleLifetimes) + Repeat(lt, length)
      ensures !thrown ==> transforms == old(transforms) + targets[startIndex..startIndex + length]
      ensures !thrown ==> states == old(states) + Repeat(UpdateTransformsState(useTweenHandle, spaceType), length)
      ensures !thrown ==> positions == old(positions) + Float3Pairs(fromPosArray, toPosArray, startIndex, length)
      ensures !thrown ==> rotations == old(rotations) + RotationPairs(fromRotArray, toRotArray, startIndex, length)
      ensures !thrown ==> scales == old(scales) + Float3Pairs(fromScaleArray, toScaleArray, startIndex, length)
      ensures |base.handles| == old(|base.handles|) + 1 && base.handles[..old(|base.handles|)] == old(base.handles)
      ensures base.handles[|base.handles| - 1] != null <==> useTweenHandle || onStart.Some? || onComplete.Some?
      ensures !thrown ==> tweenHandle == (if useTweenHandle then base.handles[|base.handles| - 1] else null)
      ensures NativeCopy() == old(NativeCopy()) && (old(JobCopyFits()) ==> JobCopyFits())
    {
      var lt := NewLifetime(duration, easeType, loopType, loopCount);
      if startIndex < 0 || length < 0 {
        // the slot data is never read: `_transforms.AddRange` throws first
        tweenHandle, thrown := AddBatch(targets, startIndex, length, UpdateTransformsState(useTweenHandle, spaceType), [],
          [], [], lt, lt, lt, lt, onStart, onComplete, useTweenHandle);
        return;
      }
      tweenHandle, thrown := AddBatch(targets, startIndex, length, UpdateTransformsState(useTweenHandle, spaceType),
        Float3Pairs(fromPosArray, toPosArray, startIndex, length),
        RotationPairs(fromRotArray, toRotArray, startIndex, length),
        Float3Pairs(fromScaleArray, toScaleArray, startIndex, length), lt, lt, lt, lt, onStart, onComplete,
        useTweenHandle);
    }

    // ----- Update: command drain and start capture -----

    /**
     * The queued commands, oldest first. Completes exactly when BatchDrainFrom
     * does and then leaves the batches, clocks, slots and handle states it
     * computes; when a command throws the remaining state is not specified.
     */
    method DrainActions() returns (ok: bool)
      requires Valid()
      modifies this`batches, this`batchLifetimes, this`states
      modifies this`positionLifetimes, this`rotationLifetimes, this`scaleLifetimes
      modifies base`actionQueue, base.HandleSet()`state
      ensures Valid()
      ensures ok <==> old(BatchDrainFrom(Frame(base.HandleSet()), base.actionQueue)).Some?
      ensures ok ==> Frame(base.HandleSet()) == old(BatchDrainFrom(Frame(base.HandleSet()), base.actionQueue)).value
                     && base.actionQueue == []
    {
      ghost var keys := base.HandleSet();
      ghost var target := BatchDrainFrom(Frame(keys), base.actionQueue);
      while |base.actionQueue| > 0
        invariant Valid() && keys == base.HandleSet()
        invariant BatchDrainFrom(Frame(keys), base.actionQueue) == target
        decreases |base.actionQueue|
      {
        var handled := DrainOne(keys, target);
        if !handled {
          return false;
        }
      }
      return true;
    }

    /** One turn of the drain loop: the oldest command leaves the queue and is applied. */
    method DrainOne(ghost keys: set<TweenHandle>, ghost target: Option<BatchData>) returns (handled: bool)
      requires Valid() && |base.actionQueue| > 0 && keys == base.HandleSet()
      requires BatchDrainFrom(Frame(keys), base.actionQueue) == target
      modifies this`batches, this`batchLifetimes, this`states
      modifies this`positionLifetimes, this`rotationLifetimes, this`scaleLifetimes
      modifies base`actionQueue, keys`state
      ensures Valid() && keys == base.HandleSet() && base.actionQueue == old(base.actionQueue[1..])
      ensures handled ==> BatchDrainFrom(Frame(keys), base.actionQueue) == target
      ensures !handled ==> target.None?
    {
      ghost var queue := base.actionQueue;
      var action := base.actionQueue[0];
      base.actionQueue := base.actionQueue[1..];
      ghost var before := Frame(keys);
      handled := ApplyBatchAction(action, keys, before);
      assert queue == [action] + base.actionQueue;
      if handled {
        assert BatchDrainFrom(before, queue) == BatchDrainFrom(Frame(keys), base.actionQueue);
      }
    }

    /**
     * One dequeued command, as BatchDrainStep states it: the batch's state
     * changes by the command's own type, its clock restarts on Rewind and
     * Restart, and the new state reaches every slot of the batch and the
     * handle. An index outside the batch list is dropped with a warning;
     * false where the tweener throws (a batch without a handle, or NoAction).
     */
    method ApplyBatchAction(action: TweenHandleAction, ghost keys: set<TweenHandle>, ghost before: BatchData)
      returns (ok: bool)
      requires Valid() && keys == base.HandleSet() && before == Frame(keys)
      modifies this`batches, this`batchLifetimes, this`states
      modifies this`positionLifetimes, this`rotationLifetimes, this`scaleLifetimes
      modifies keys`state
      ensures Valid()
      ensures ok <==> BatchDrainStep(before, action).Some?
      ensures ok ==> Frame(keys) == BatchDrainStep(before, action).value
    {
      if !(0 <= action.index < |base.handles|) {
        return true;
      }
      var i := action.index;
      var tweenHandle := base.handles[i];
      if tweenHandle == null {
        // NullReferenceException reading the handle's action type
        return false;
      }
      var tweenBatch := batches[i];
      var applied := ApplyAction(tweenBatch.state, action.actionType);
      if applied.None? {
        // NotImplementedException
        return false;
      }
      var updateLifetimes := action.actionType == Rewind || action.actionType == Restart;
      BatchDrainStepApplies(before, action, applied.value);
      CommitBatchAction(i, tweenHandle, applied.value, updateLifetimes);
      ghost var states := map h | h in keys :: h.state;
      MapUpdateOne(before.handleStates, states, tweenHandle);
      return true;
    }

    /**
     * The writes of a drained command on batch `i`: the batch, its handle and
     * its slots take the state `s`; on a restart the batch clock and the
     * slots' clocks restart.
     */
    method CommitBatchAction(i: int, h: TweenHandle, s: set<StateFlag>, restart: bool)
      requires Valid() && 0 <= i < |batches| && base.handles[i] == h
      modifies this`batches, this`batchLifetimes, this`states
      modifies this`positionLifetimes, this`rotationLifetimes, this`scaleLifetimes
      modifies h`state
      ensures Valid()
      ensures batches == old(batches[i := batches[i].(state := s)])
      ensures batchLifetimes == old(if restart then batchLifetimes[i := batchLifetimes[i].Restart()] else batchLifetimes)
      ensures Lists() == old(PropagateBatch(Lists(), batches[i], s, restart))
      ensures h.state == s
    {
      var tweenBatch := batches[i];
      if restart {
        batchLifetimes := batchLifetimes[i := batchLifetimes[i].Restart()];
      }
      TiledBatchEnd(batches, |transforms|, i);
      PropagateBatchState(tweenBatch, s, restart);
      h.state := s;
      TiledSameSpans(batches, batches[i := tweenBatch.(state := s)], |transforms|);
      batches := batches[i := tweenBatch.(state := s)];
    }

    /** The slot loop of the drain: every slot of batch `b` takes the state `s`, and on a restart its three clocks restart. */
    method PropagateBatchState(b: TweenTransformBatchState, s: set<StateFlag>, restart: bool)
      requires Lists().Aligned() && b.startIndex + b.length <= |transforms| <= IntMax
      modifies this`states, this`positionLifetimes, this`rotationLifetimes, this`scaleLifetimes
      ensures Lists() == old(PropagateBatch(Lists(), b, s, restart))
    {
      ghost var slots := Lists();
      var i: int := b.startIndex;
      while i < UintSum(b.startIndex, b.length)
        invariant b.startIndex <= i <= b.startIndex + b.length
        invariant |states| == |transforms| && |positionLifetimes| == |transforms|
        invariant |rotationLifetimes| == |transforms| && |scaleLifetimes| == |transforms|
        invariant forall j | 0 <= j < |transforms| ::
          states[j] == (if b.startIndex <= j < i then slots.states[j].(state := s) else slots.states[j])
        invariant forall j | 0 <= j < |transforms| ::
          positionLifetimes[j] == (if restart && b.startIndex <= j < i then slots.positionLifetimes[j].Restart()
                                   else slots.positionLifetimes[j])
        invariant forall j | 0 <= j < |transforms| ::
          rotationLifetimes[j] == (if restart && b.startIndex <= j < i then slots.rotationLifetimes[j].Restart()
                                   else slots.rotationLifetimes[j])
        invariant forall j | 0 <= j < |transforms| ::
          scaleLifetimes[j] == (if restart && b.startIndex <= j < i then slots.scaleLifetimes[j].Restart()
                                else slots.scaleLifetimes[j])
      {
        states := states[i := states[i].(state := s)];
        if restart {
          positionLifetimes := positionLifetimes[i := positionLifetimes[i].Restart()];
          rotationLifetimes := rotationLifetimes[i := rotationLifetimes[i].Restart()];
          scaleLifetimes := scaleLifetimes[i := scaleLifetimes[i].Restart()];
        }
        i := i + 1;
      }
      assert states == SetBatchStates(slots.states, b, s);
      if restart {
        assert positionLifetimes == RestartBatchClocks(slots.positionLifetimes, b);
        assert rotationLifetimes == RestartBatchClocks(slots.rotationLifetimes, b);
        assert scaleLifetimes == RestartBatchClocks(slots.scaleLifetimes, b);
      }
    }

    /**
     * The start capture of UpdateTweens, as BatchStartPass states it over
     * every batch; returns the handles whose Started listeners are then
     * invoked, in batch order.
     */
    method CaptureBatchStarts() returns (started: seq<TweenHandle>)
      requires Valid()
      modifies this`batches, base.HandleSet()`state
      ensures Valid()
      ensures Frame(base.HandleSet()) == old(BatchStartPass(Frame(base.HandleSet()), |batches|)).data
      ensures started == old(BatchStartPass(Frame(base.HandleSet()), |batches|)).started
    {
      ghost var keys := base.HandleSet();
      ghost var f0 := Frame(keys);
      started := [];
      var i := 0;
      while i < |batches|
        invariant Valid() && 0 <= i <= |batches|
        invariant BatchStartPass(f0, i) == BatchStart(Frame(keys), started)
      {
        started := StartBatch(i, keys, started);
        i := i + 1;
      }
    }

    /** Batch `i` of the start capture, as BatchStartStep states it. */
    method StartBatch(i: int, ghost keys: set<TweenHandle>, started: seq<TweenHandle>) returns (started': seq<TweenHandle>)
      requires Valid() && 0 <= i < |batches| && keys == base.HandleSet()
      modifies this`batches, keys`state
      ensures Valid()
      ensures BatchStart(Frame(keys), started') == old(BatchStartStep(BatchStart(Frame(keys), started), i))
    {
      ghost var before := BatchStart(Frame(keys), started);
      started' := started;
      var tweenBatch := batches[i];
      if tweenBatch.IsPlaying() && tweenBatch.JustStarted() {
        tweenBatch := tweenBatch.(state := tweenBatch.state - {StateFlag.JustStarted});
        TiledSameSpans(batches, batches[i := tweenBatch], |transforms|);
        batches := batches[i := tweenBatch];
        var tweenHandle := base.handles[i];
        if tweenHandle != null {
          tweenHandle.state := tweenBatch.state;
          started' := started' + [tweenHandle];
        }
      }
      assert BatchStart(Frame(keys), started') == BatchStartStep(before, i);
    }

    /**
     * UpdateTweens, as BatchUpdateOutcome states it: with no slots nothing
     * happens; otherwise the queue is drained, starts are captured, the batch
     * job runs over native copies of every batch and clock, and the job is
     * marked scheduled. Returns the handles whose Started listeners run; ok
     * is false where the drain throws.
     */
    method UpdateTweens(job: BatchJob) returns (ok: bool, started: seq<TweenHandle>)
      requires Valid()
      modifies this`batches, this`batchLifetimes, this`states, this`nativeBatches, this`nativeBatchLifetimes
      modifies this`positionLifetimes, this`rotationLifetimes, this`scaleLifetimes
      modifies base`actionQueue, base`isJobScheduled, base.HandleSet()`state
      ensures Valid()
      ensures var r := old(BatchUpdateOutcome(Frame(base.HandleSet()), base.actionQueue));
        (ok <==> r.Some?) && (ok ==> Frame(base.HandleSet()) == r.value.data && started == r.value.started)
      ensures old(|transforms|) == 0 ==>
        base.actionQueue == old(base.actionQueue) && base.isJobScheduled == old(base.isJobScheduled)
        && NativeCopy() == old(NativeCopy())
      ensures old(|transforms|) > 0 && ok ==>
        base.actionQueue == [] && base.isJobScheduled && JobCopyFits()
        && NativeCopy() == RunBatchJob(batches, batchLifetimes, base.deltaTime, job)
    {
      if |transforms| == 0 {
        return true, [];
      }
      ok, started := DrainCaptureAndSchedule(job);
    }

    /** UpdateTweens when there are slots: the drain and start capture, then the batch job if the drain did not throw. */
    method DrainCaptureAndSchedule(job: BatchJob) returns (ok: bool, started: seq<TweenHandle>)
      requires Valid() && |transforms| > 0
      modifies this`batches, this`batchLifetimes, this`states, this`nativeBatches, this`nativeBatchLifetimes
      modifies this`positionLifetimes, this`rotationLifetimes, this`scaleLifetimes
      modifies base`actionQueue, base`isJobScheduled, base.HandleSet()`state
      ensures Valid()
      ensures var r := old(BatchUpdateOutcome(Frame(base.HandleSet()), base.actionQueue));
        (ok <==> r.Some?) && (ok ==> Frame(base.HandleSet()) == r.value.data && started == r.value.started)
      ensures ok ==>
        base.actionQueue == [] && base.isJobScheduled && JobCopyFits()
        && NativeCopy() == RunBatchJob(batches, batchLifetimes, base.deltaTime, job)
    {
      ok, started := DrainAndCapture();
      if ok {
        ScheduleBatchJob(job);
      }
    }

    /** The queue is drained and starts are captured, as BatchUpdateOutcome states it when there are slots. */
    method DrainAndCapture() returns (ok: bool, started: seq<TweenHandle>)
      requires Valid() && |transforms| > 0
      modifies this`batches, this`batchLifetimes, this`states
      modifies this`positionLifetimes, this`rotationLifetimes, this`scaleLifetimes
      modifies base`actionQueue, base.HandleSet()`state
      ensures Valid() && (ok ==> base.actionQueue == [])
      ensures var r := old(BatchUpdateOutcome(Frame(base.HandleSet()), base.actionQueue));
        (ok <==> r.Some?) && (ok ==> Frame(base.HandleSet()) == r.value.data && started == r.value.started)
    {
      ok := DrainActions();
      if !ok {
        return false, [];
      }
      started := CaptureBatchStarts();
    }

    /** The batch job runs over native copies of every batch and clock, and the job is marked scheduled. */
    method ScheduleBatchJob(job: BatchJob)
      requires Valid()
      modifies this`nativeBatches, this`nativeBatchLifetimes, base`isJobScheduled
      ensures Valid() && base.isJobScheduled && JobCopyFits()
      ensures NativeCopy() == RunBatchJob(batches, batchLifetimes, base.deltaTime, job)
    {
      var copy := RunBatchJob(batches, batchLifetimes, base.deltaTime, job);
      nativeBatches, nativeBatchLifetimes := copy.batches, copy.batchLifetimes;
      assert batches[..|nativeBatches|] == batches;
      base.isJobScheduled := true;
    }

    /** The frame's Update: stores the frame's delta time, then runs UpdateTweens. */
    method Update(deltaTime: real, job: BatchJob) returns (ok: bool, started: seq<TweenHandle>)
      requires Valid()
      modifies this`batches, this`batchLifetimes, this`states, this`nativeBatches, this`nativeBatchLifetimes
      modifies this`positionLifetimes, this`rotationLifetimes, this`scaleLifetimes
      modifies base`actionQueue, base`isJobScheduled, base`deltaTime, base.HandleSet()`state
      ensures Valid() && base.deltaTime == deltaTime
      ensures var r := old(BatchUpdateOutcome(Frame(base.HandleSet()), base.actionQueue));
        (ok <==> r.Some?) && (ok ==> Frame(base.HandleSet()) == r.value.data && started == r.value.started)
      ensures old(|transforms|) > 0 && ok ==>
        base.isJobScheduled && JobCopyFits() && NativeCopy() == RunBatchJob(batches, batchLifetimes, deltaTime, job)
    {
      base.deltaTime := deltaTime;
      ok, started := UpdateTweens(job);
    }

    // ----- LateUpdate: completion and compaction -----

    /**
     * LateUpdateTweens: nothing unless a job was scheduled. Otherwise clears
     * the flag, copies the job's batches and clocks back, runs the late pass
     * over every batch from the last down, returns the handles whose
     * Completed listeners run, in pass order, and puts each back at the end
     * of the pool first.
     */
    method LateUpdateTweens() returns (ended: seq<TweenHandle>)
      requires Valid() && (base.isJobScheduled ==> JobCopyFits())
      modifies this`batches, this`batchLifetimes, this`transforms, this`states, this`positions, this`rotations
      modifies this`scales, this`positionLifetimes, this`rotationLifetimes, this`scaleLifetimes
      modifies base`handles, base`handlePool, base`isJobScheduled, base.HandleSet()`state
      ensures Valid() && base.HandleSet() <= old(base.HandleSet())
      ensures !old(base.isJobScheduled) ==>
        ended == [] && Lists() == old(Lists()) && batches == old(batches) && base.handles == old(base.handles)
        && base.handlePool == old(base.handlePool) && unchanged(old(base.HandleSet()))
      ensures old(base.isJobScheduled) ==>
        var q := old(BatchLateOutcome(WriteBackBatches(Frame(base.HandleSet()), NativeCopy())));
        !base.isJobScheduled && ended == q.ended && base.handlePool == old(base.handlePool) + q.ended
        && Frame(old(base.HandleSet())) == q.data
    {
      if !base.isJobScheduled {
        return [];
      }
      ended := CompleteFrame(base.HandleSet());
    }

    /** The scheduled branch of LateUpdateTweens: the flag clears, the job's results come back, the late pass runs. */
    method CompleteFrame(ghost keys: set<TweenHandle>) returns (ended: seq<TweenHandle>)
      requires Valid() && JobCopyFits() && keys == base.HandleSet()
      modifies this`batches, this`batchLifetimes, this`transforms, this`states, this`positions, this`rotations
      modifies this`scales, this`positionLifetimes, this`rotationLifetimes, this`scaleLifetimes
      modifies base`handles, base`handlePool, base`isJobScheduled, keys`state
      ensures Valid() && base.HandleSet() <= keys
      ensures var q := old(BatchLateOutcome(WriteBackBatches(Frame(keys), NativeCopy())));
        !base.isJobScheduled && ended == q.ended && base.handlePool == old(base.handlePool) + q.ended
        && Frame(keys) == q.data
    {
      ClearJobScheduled();
      ended := CopyBackAndComplete(keys);
      Repool(ended);
    }

    /** The job is no longer scheduled. */
    method ClearJobScheduled()
      requires Valid()
      modifies base`isJobScheduled
      ensures Valid() && !base.isJobScheduled
    {
      base.isJobScheduled := false;
    }

    /** The job's results are copied back, then the late pass runs over every batch, from the last down. */
    method CopyBackAndComplete(ghost keys: set<TweenHandle>) returns (ended: seq<TweenHandle>)
      requires Valid() && JobCopyFits() && keys == base.HandleSet()
      modifies this`batches, this`batchLifetimes, this`transforms, this`states, this`positions, this`rotations
      modifies this`scales, this`positionLifetimes, this`rotationLifetimes, this`scaleLifetimes
      modifies base`handles, keys`state
      ensures Valid() && base.HandleSet() <= keys
      ensures forall h | h in ended :: h.tweenerBase == base
      ensures var q := old(BatchLateOutcome(WriteBackBatches(Frame(keys), NativeCopy())));
        ended == q.ended && Frame(keys) == q.data
    {
      CopyBack(keys);
      ended := CompleteAndCompact(keys, Frame(keys));
    }

    /** The native batches and clocks are copied back over the start of their lists, as WriteBackBatches states it. */
    method CopyBack(ghost keys: set<TweenHandle>)
      requires Valid() && JobCopyFits() && keys == base.HandleSet()
      modifies this`batches, this`batchLifetimes
      ensures Valid() && Frame(keys) == old(WriteBackBatches(Frame(keys), NativeCopy()))
    {
      ghost var w := WriteBackBatches(Frame(keys), NativeCopy());
      batches := nativeBatches + batches[|nativeBatches|..];
      batchLifetimes := nativeBatchLifetimes + batchLifetimes[|nativeBatches|..];
      assert Frame(keys) == w;
    }

    /** The handles of completed batches go back to the pool, in the order they ended. */
    method Repool(ended: seq<TweenHandle>)
      requires Valid() && forall h | h in ended :: h.tweenerBase == base
      modifies base`handlePool
      ensures Valid() && base.handlePool == old(base.handlePool) + ended
    {
      base.handlePool := base.handlePool + ended;
    }

    /** The late pass over every batch, from the last down, as BatchLateOutcome states it. */
    method CompleteAndCompact(ghost keys: set<TweenHandle>, ghost f0: BatchData) returns (ended: seq<TweenHandle>)
      requires Valid() && keys == base.HandleSet() && f0 == Frame(keys)
      modifies this`batches, this`batchLifetimes, this`transforms, this`states, this`positions, this`rotations
      modifies this`scales, this`positionLifetimes, this`rotationLifetimes, this`scaleLifetimes
      modifies base`handles, keys`state
      ensures Valid() && base.HandleSet() <= keys
      ensures forall h | h in ended :: h.tweenerBase == base
      ensures ended == BatchLateOutcome(f0).ended && Frame(keys) == BatchLateOutcome(f0).data
    {
      ended := [];
      var i := |batches| - 1;
      while i >= 0
        invariant Valid() && -1 <= i < |batches| && base.HandleSet() <= keys
        invariant forall h | h in ended :: h in keys
        invariant BatchLatePass(BatchLate(Frame(keys), ended), i + 1) == BatchLateOutcome(f0)
      {
        ended := LateBatch(i, keys, ended);
        i := i - 1;
      }
    }

    /** Batch `i` of the late pass, as BatchLateStep states it. */
    method LateBatch(i: int, ghost keys: set<TweenHandle>, ended: seq<TweenHandle>) returns (ended': seq<TweenHandle>)
      requires Valid() && 0 <= i < |batches| && base.HandleSet() <= keys
      requires forall h | h in ended :: h in keys
      modifies this`batches, this`batchLifetimes, this`transforms, this`states, this`positions, this`rotations
      modifies this`scales, this`positionLifetimes, this`rotationLifetimes, this`scaleLifetimes
      modifies base`handles, keys`state
      ensures Valid() && base.HandleSet() <= keys
      ensures forall h | h in ended' :: h in keys
      ensures BatchLate(Frame(keys), ended') == old(BatchLateStep(BatchLate(Frame(keys), ended), i))
    {
      var batch;
      batch, ended' := MarkBatch(i, keys, ended);
      if batch.IsCompleted() && batch.RequiresRecycling() {
        RemoveBatchAt(i, keys, Frame(keys));
      }
    }

    /**
     * The first half of batch `i`'s late step, as BatchLateMark states it:
     * the handle takes the batch's state; a completed batch that just ended
     * loses JustEnded and queues its handle. Returns the batch as left.
     */
    method MarkBatch(i: int, ghost keys: set<TweenHandle>, ended: seq<TweenHandle>)
      returns (batch: TweenTransformBatchState, ended': seq<TweenHandle>)
      requires Valid() && 0 <= i < |batches| && base.HandleSet() <= keys
      requires forall h | h in ended :: h in keys
      modifies this`batches, keys`state
      ensures Valid() && batch == batches[i]
      ensures forall h | h in ended' :: h in keys
      ensures BatchLate(Frame(keys), ended') == old(BatchLateMark(BatchLate(Frame(keys), ended), i))
    {
      ghost var r := BatchLate(Frame(keys), ended);
      ended' := ended;
      batch := batches[i];
      var tweenHandle := base.handles[i];
      if tweenHandle != null {
        tweenHandle.state := batch.state;
      }
      if batch.IsCompleted() && batch.JustEnded() {
        batch := batch.(state := batch.state - {StateFlag.JustEnded});
        if tweenHandle != null {
          tweenHandle.state := batch.state;
          ended' := ended' + [tweenHandle];
        }
      }
      TiledSameSpans(batches, batches[i := batch], |transforms|);
      batches := batches[i := batch];
      assert BatchLate(Frame(keys), ended') == BatchLateMark(r, i);
    }

    /**
     * Removes batch `i`, as RemoveBatchData states it: its slot range leaves
     * every slot list, every later batch's start index drops by its length,
     * and its batch entry, clock and handle entry are removed.
     */
    method RemoveBatchAt(i: int, ghost keys: set<TweenHandle>, ghost f: BatchData)
      requires Valid() && 0 <= i < |batches| && base.HandleSet() <= keys && f == Frame(keys)
      modifies this`batches, this`batchLifetimes, this`transforms, this`states, this`positions, this`rotations
      modifies this`scales, this`positionLifetimes, this`rotationLifetimes, this`scaleLifetimes, base`handles
      ensures Valid() && base.HandleSet() <= keys
      ensures Frame(keys) == RemoveBatchData(f, i)
    {
      var batch := batches[i];
      TiledBatchEnd(batches, |transforms|, i);
      TiledRemove(batches, |transforms|, i);
      RemoveSlots(batch.startIndex, batch.length);
      ghost var lists := Lists();
      ShiftLaterBatches(i, batch.length);
      DropBatchEntry(i);
      RemoveBatchDataParts(f, i);
      ShiftThenRemove(f.batches, i);
      assert Lists() == lists;
      assert Frame(keys).handleStates == f.handleStates;
    }

    /** Batch `i`'s entry, clock and handle entry leave their lists. */
    method DropBatchEntry(i: int)
      requires 0 <= i < |batches| && i < |batchLifetimes| && i < |base.handles|
      modifies this`batches, this`batchLifetimes, base`handles
      ensures batches == RemoveAtSeq(old(batches), i) && batchLifetimes == RemoveAtSeq(old(batchLifetimes), i)
      ensures base.handles == RemoveAtSeq(old(base.handles), i)
    {
      batches := RemoveAtSeq(batches, i);
      batchLifetimes := RemoveAtSeq(batchLifetimes, i);
      base.handles := RemoveAtSeq(base.handles, i);
    }

    /** RemoveRange(start, length) on every slot list. */
    method RemoveSlots(start: int, length: int)
      requires Lists().Aligned() && 0 <= start && 0 <= length && start + length <= |transforms|
      modifies this`transforms, this`states, this`positions, this`rotations, this`scales
      modifies this`positionLifetimes, this`rotationLifetimes, this`scaleLifetimes
      ensures Lists() == old(Lists().RemoveRange(start, length))
    {
      transforms := RemoveRangeSeq(transforms, start, length);
      states := RemoveRangeSeq(states, start, length);
      positions := RemoveRangeSeq(positions, start, length);
      rotations := RemoveRangeSeq(rotations, start, length);
      scales := RemoveRangeSeq(scales, start, length);
      positionLifetimes := RemoveRangeSeq(positionLifetimes, start, length);
      rotationLifetimes := RemoveRangeSeq(rotationLifetimes, start, length);
      scaleLifetimes := RemoveRangeSeq(scaleLifetimes, start, length);
    }

    /** The shift loop of compaction: every batch after `i` has its start index lowered by `d` (a `uint` subtraction). */
    method ShiftLaterBatches(i: int, d: uint32)
      requires 0 <= i < |batches|
      modifies this`batches
      ensures batches == old(batches[..i + 1] + ShiftDown(batches[i + 1..], d))
    {
      ghost var b0 := batches;
      var j := i + 1;
      while j < |batches|
        invariant i + 1 <= j <= |batches| == |b0|
        invariant forall k | 0 <= k < |batches| ::
          batches[k] == (if i < k < j then b0[k].(startIndex := UintSub(b0[k].startIndex, d)) else b0[k])
      {
        var laterTweenBatch := batches[j];
        laterTweenBatch := laterTweenBatch.(startIndex := UintSub(laterTweenBatch.startIndex, d));
        batches := batches[j := laterTweenBatch];
        j := j + 1;
      }
      assert batches == b0[..i + 1] + ShiftDown(b0[i + 1..], d);
    }
  }
}
