// BatchTransformTweener (older revision): one TweenBatch per call, owning a
// contiguous run of slots, with one batch clock. There are no handles or
// commands. Update advances the batch clocks on the main thread, marks every
// batch whose clock reached its end as completed, and runs the tween job over
// a copy of the slots. LateUpdate writes the job's states and clocks back,
// sorts the batch list by start index, and removes every completed batch
// together with its slot range, from the last batch to the first.

module LegacyBatchTweener {
  import opened TweenTypes
  import opened TweenValues
  import opened Lifetime
  import opened TransformState
  import opened Handles
  import opened FastLists
  import opened BatchState
  import opened BatchPasses
  import opened BatchTweener
  import opened Jobs
  import opened LegacyCompaction

  // ----- new slots -----

  /**
   * A clock as the older revision builds it: the duration as given (a
   * negative one is not clamped), the loop count cast to `short` (wrapping,
   * not clamping), and `originalLoopCount` left at 0.
   */
  function LegacyLifetime(duration: real, easeType: EaseType, loopType: LoopType, loopCount: int): (r: TweenLifetime)
    ensures r.ProgressDefined() && r.GetProgress() == 0.0 && !r.isReversed
    ensures IsShort(r.loopCount) && (r.loopCount - loopCount) % 65536 == 0 && r.originalLoopCount == 0
  {
    TweenLifetime(duration, 0.0, ShortCast(loopCount), 0, easeType, loopType, false)
  }

  /**
   * For a loop count that fits a `short`, the older clock agrees with the
   * newer revision's NewLifetime, except for the original loop count,
   * exactly when the duration is not negative and the loop count is at
   * least -1 (a negative duration is kept, a count below -1 is not raised to
   * -1); one past short.MaxValue wraps to short.MinValue instead of
   * saturating.
   */
  lemma LegacyLifetimeAgainstNew(duration: real, easeType: EaseType, loopType: LoopType, loopCount: int)
    requires IsShort(loopCount)
    ensures LegacyLifetime(duration, easeType, loopType, loopCount)
              == NewLifetime(duration, easeType, loopType, loopCount).(originalLoopCount := 0)
            <==> duration >= 0.0 && -1 <= loopCount
    ensures LegacyLifetime(duration, easeType, loopType, ShortMax + 1).loopCount == ShortMin
    ensures NewLifetime(duration, easeType, loopType, ShortMax + 1).loopCount == ShortMax
  {
    assert ShortCast(ShortMax + 1) == ShortMin;
  }

  /** A new BatchMove slot: playing, movement only, in the given space. */
  function LegacyMoveState(spaceType: SpaceType): (s: LegacyTransformState)
    ensures s.isPlaying && s.moveSpaceType == spaceType && s.GetRotateMode() == XYZ
    ensures Enabled(s, Movement) && !Enabled(s, Rotation) && !Enabled(s, Scaling)
    ensures LastEnabled(s) == Some(Movement)
  {
    LegacyTransformState(true, true, false, false, spaceType, XYZ)
  }

  /** A new BatchScale slot: playing, scaling only; the space is stored as the movement space. */
  function LegacyScaleState(spaceType: SpaceType): (s: LegacyTransformState)
    ensures s.isPlaying && s.moveSpaceType == spaceType && s.GetRotateMode() == XYZ
    ensures !Enabled(s, Movement) && !Enabled(s, Rotation) && Enabled(s, Scaling)
    ensures LastEnabled(s) == Some(Scaling)
  {
    LegacyTransformState(true, false, false, true, spaceType, XYZ)
  }

  /**
   * A new BatchRotate slot, as written: it enables scaling, not rotation, so
   * it is the BatchScale slot state.
   */
  function LegacyRotateState(spaceType: SpaceType): (s: LegacyTransformState)
    ensures s == LegacyScaleState(spaceType)
    ensures !Enabled(s, Rotation) && Enabled(s, Scaling)
  {
    LegacyTransformState(true, false, false, true, spaceType, XYZ)
  }

  /** A new BatchRotate slot as evidently intended: playing, rotation only, like the newer revision's. */
  function LegacyRotateStateIntended(spaceType: SpaceType): (s: LegacyTransformState)
    ensures s.isPlaying && s.moveSpaceType == spaceType && s.GetRotateMode() == XYZ
    ensures !Enabled(s, Movement) && Enabled(s, Rotation) && !Enabled(s, Scaling)
    ensures LastEnabled(s) == Some(Rotation)
  {
    LegacyTransformState(true, false, true, false, spaceType, XYZ)
  }

  /**
   * With the intended state a BatchRotate slot moves: the job advances its
   * rotation clock, leaves the other two alone, and keeps it playing until
   * the rotation clock reaches progress 1.
   */
  lemma LegacyRotateSlotIntendedAdvances(c: SlotClocks, spaceType: SpaceType, deltaTime: real)
    requires deltaTime >= 0.0 && c.Defined() && c.state == LegacyRotateStateIntended(spaceType)
    ensures var r := AdvanceSlot(c, deltaTime);
      r.rotationLifetime == c.rotationLifetime.Update(deltaTime)
      && r.positionLifetime == c.positionLifetime && r.scaleLifetime == c.scaleLifetime
      && (r.state.isPlaying <==> r.rotationLifetime.GetProgress() < 1.0)
  {
    var r := AdvanceSlot(c, deltaTime);
    assert r.Clock(Rotation) == c.Clock(Rotation).Update(deltaTime);
    assert r.Clock(Movement) == c.Clock(Movement) && r.Clock(Scaling) == c.Clock(Scaling);
  }

  /** A new BatchUpdateTransforms slot: playing, all three channels. */
  function LegacyUpdateTransformsState(spaceType: SpaceType): (s: LegacyTransformState)
    ensures s.isPlaying && s.moveSpaceType == spaceType && s.GetRotateMode() == XYZ
    ensures Enabled(s, Movement) && Enabled(s, Rotation) && Enabled(s, Scaling)
    ensures LastEnabled(s) == Some(Scaling)
  {
    LegacyTransformState(true, true, true, true, spaceType, XYZ)
  }

  const DefaultTweenPosition: TweenPosition := TweenPosition(ZeroFloat3, ZeroFloat3)
  const DefaultTweenScale: TweenScale := TweenScale(ZeroFloat3, ZeroFloat3)

  /** The position endpoints of a slice of two parallel arrays. */
  function PositionPairs(from: seq<Float3>, to: seq<Float3>, start: nat, n: nat): (r: seq<TweenPosition>)
    requires start + n <= |from| && start + n <= |to|
    ensures |r| == n
    ensures forall k | 0 <= k < n :: r[k].from == from[start + k] && r[k].to == to[start + k]
  {
    seq(n, k requires 0 <= k < n => TweenPosition(from[start + k], to[start + k]))
  }

  /** The scale endpoints of a slice of two parallel arrays. */
  function ScalePairs(from: seq<Float3>, to: seq<Float3>, start: nat, n: nat): (r: seq<TweenScale>)
    requires start + n <= |from| && start + n <= |to|
    ensures |r| == n
    ensures forall k | 0 <= k < n :: r[k].from == from[start + k] && r[k].to == to[start + k]
  {
    seq(n, k requires 0 <= k < n => TweenScale(from[start + k], to[start + k]))
  }

  /**
   * A BatchRotate slot never moves: its scale clock has duration 0, so the
   * job finds it playing with progress 0 on every frame and leaves every
   * clock as it was, while its rotation clock is never advanced; the only
   * thing the job writes is a NaN scale.
   */
  lemma LegacyRotateSlotIsStuck(v: SlotView, e: SlotEndpoints, spaceType: SpaceType, deltaTime: real,
                                curve: (EaseType, real, real) -> real,
                                rotate: (TweenRotation, real, bool, RotateMode) -> Quaternion)
    requires deltaTime >= 0.0 && v.clocks.rotationLifetime.ProgressDefined()
    requires v.clocks.state == LegacyRotateState(spaceType)
    requires v.clocks.positionLifetime == DefaultLifetime && v.clocks.scaleLifetime == DefaultLifetime
    ensures AdvanceSlot(v.clocks, deltaTime) == v.clocks
    ensures ExecuteSlot(v, e, deltaTime, curve, rotate) == v.(outputs := v.outputs.(scale := NaN))
  {
    assert DefaultLifetime.Update(deltaTime) == DefaultLifetime by {
      assert DefaultLifetime.Advanced(deltaTime) == DefaultLifetime;
    }
  }

  // ----- the job's view of the slots -----

  /** Every clock of every slot can report its progress. */
  predicate SlotsDefined(s: LegacySlots)
  {
    ClocksDefined(s.positionLifetimes) && ClocksDefined(s.rotationLifetimes) && ClocksDefined(s.scaleLifetimes)
  }

  /** A fresh array holding `xs`. */
  method ArrayOf<T>(xs: seq<T>) returns (a: array<T>)
    ensures fresh(a) && a[..] == xs
  {
    a := new T[|xs|](j requires 0 <= j < |xs| => xs[j]);
  }

  /** A fresh array of `n` copies of `v`. */
  method Filled<T>(n: nat, v: T) returns (a: array<T>)
    ensures fresh(a) && a.Length == n && forall j | 0 <= j < n :: a[j] == v
  {
    a := new T[n](_ => v);
  }

  /**
   * The job UpdateTweens schedules: the slots are copied to fresh arrays
   * (positions and scales as TweenFloat3 pairs, outputs zeroed), so that the
   * job sees at each index exactly that slot's state and clocks.
   */
  method NewTweenJob(s: LegacySlots, deltaTime: real, curve: (EaseType, real, real) -> real,
                     rotate: (TweenRotation, real, bool, RotateMode) -> Quaternion) returns (job: ProcessTweenJob)
    requires s.Aligned() && deltaTime >= 0.0
    ensures fresh(job) && fresh(job.tweenStates) && fresh(job.positions) && fresh(job.rotations) && fresh(job.scales)
    ensures fresh(job.tweenPositionLifetimes) && fresh(job.tweenRotationLifetimes) && fresh(job.tweenScaleLifetimes)
    ensures job.Valid() && job.tweenStates.Length == |s.transforms|
    ensures job.deltaTime == deltaTime && job.curve == curve && job.rotate == rotate
    ensures forall j | 0 <= j < |s.transforms| :: job.Slot(j).clocks == s.Clocks(j)
  {
    var n := |s.transforms|;
    var tweenPositions := ArrayOf(seq(n, j requires 0 <= j < n => TweenFloat3(s.positions[j].from, s.positions[j].to)));
    var tweenRotations := ArrayOf(s.rotations);
    var tweenScales := ArrayOf(seq(n, j requires 0 <= j < n => TweenFloat3(s.scales[j].from, s.scales[j].to)));
    var positions := Filled(n, Value(ZeroFloat3));
    var rotations := Filled(n, Value(ZeroQuaternion));
    var scales := Filled(n, Value(ZeroFloat3));
    var positionLifetimes := ArrayOf(s.positionLifetimes);
    var rotationLifetimes := ArrayOf(s.rotationLifetimes);
    var scaleLifetimes := ArrayOf(s.scaleLifetimes);
    var states := ArrayOf(s.states);
    job := new ProcessTweenJob(tweenPositions, tweenRotations, tweenScales, positions, rotations, scales,
      positionLifetimes, rotationLifetimes, scaleLifetimes, states, deltaTime, curve, rotate);
    forall j | 0 <= j < n
      ensures job.Slot(j).clocks == s.Clocks(j)
    {
      assert states[j] == s.states[j] && positionLifetimes[j] == s.positionLifetimes[j];
      assert rotationLifetimes[j] == s.rotationLifetimes[j] && scaleLifetimes[j] == s.scaleLifetimes[j];
    }
  }

  /**
   * The tween job over every slot, run once per index, with the states and
   * clocks read back: each slot comes back as AdvanceSlot of itself.
   */
  method RunTweenJob(slots: LegacySlots, deltaTime: real, curve: (EaseType, real, real) -> real,
                     rotate: (TweenRotation, real, bool, RotateMode) -> Quaternion) returns (clocks: seq<SlotClocks>)
    requires slots.Aligned() && SlotsDefined(slots) && deltaTime >= 0.0
    ensures |clocks| == |slots.transforms|
    ensures forall j | 0 <= j < |clocks| :: clocks[j] == AdvanceSlot(slots.Clocks(j), deltaTime)
  {
    var n := |slots.transforms|;
    var job := NewTweenJob(slots, deltaTime, curve, rotate);
    var order := seq(n, j => j);
    forall j | 0 <= j < n
      ensures j in order
    {
      assert order[j] == j;
    }
    forall j | 0 <= j < n
      ensures job.Slot(j).clocks.Defined()
    {
      assert slots.positionLifetimes[j] in slots.positionLifetimes;
      assert slots.rotationLifetimes[j] in slots.rotationLifetimes;
      assert slots.scaleLifetimes[j] in slots.scaleLifetimes;
    }
    job.Run(order);
    var st, pl, rl, sl := job.tweenStates[..], job.tweenPositionLifetimes[..], job.tweenRotationLifetimes[..],
      job.tweenScaleLifetimes[..];
    clocks := seq(n, j requires 0 <= j < n => SlotClocks(st[j], pl[j], rl[j], sl[j]));
    forall j | 0 <= j < n
      ensures clocks[j] == AdvanceSlot(slots.Clocks(j), deltaTime)
    {
      assert clocks[j] == job.Slot(j).clocks;
    }
  }

  /**
   * The copy back of LateUpdateTweens: the job's states and clocks overwrite
   * the first |clocks| entries of the state and clock lists; later slots,
   * added after the job was scheduled, and the other lists keep theirs.
   */
  function WriteBack(s: LegacySlots, clocks: seq<SlotClocks>): (r: LegacySlots)
    requires s.Aligned() && |clocks| <= |s.transforms|
    ensures r.Aligned() && r.transforms == s.transforms
    ensures r.positions == s.positions && r.rotations == s.rotations && r.scales == s.scales
    ensures forall j | 0 <= j < |clocks| :: r.Clocks(j) == clocks[j]
    ensures forall j | |clocks| <= j < |s.transforms| :: r.Clocks(j) == s.Clocks(j)
  {
    var n := |clocks|;
    s.(states := seq(n, j requires 0 <= j < n => clocks[j].state) + s.states[n..],
       positionLifetimes := seq(n, j requires 0 <= j < n => clocks[j].positionLifetime) + s.positionLifetimes[n..],
       rotationLifetimes := seq(n, j requires 0 <= j < n => clocks[j].rotationLifetime) + s.rotationLifetimes[n..],
       scaleLifetimes := seq(n, j requires 0 <= j < n => clocks[j].scaleLifetime) + s.scaleLifetimes[n..])
  }

  /** Writing back defined clocks keeps every clock defined. */
  lemma WriteBackDefined(s: LegacySlots, clocks: seq<SlotClocks>)
    requires s.Aligned() && |clocks| <= |s.transforms| && SlotsDefined(s)
    requires forall c | c in clocks :: c.Defined()
    ensures SlotsDefined(WriteBack(s, clocks))
  {
    var r := WriteBack(s, clocks);
    forall j | 0 <= j < |s.transforms|
      ensures r.Clocks(j).Defined()
    {
      if j < |clocks| {
        assert clocks[j] in clocks;
      } else {
        assert s.positionLifetimes[j] in s.positionLifetimes;
        assert s.rotationLifetimes[j] in s.rotationLifetimes;
        assert s.scaleLifetimes[j] in s.scaleLifetimes;
      }
    }
    IndexedClocksDefined(r.positionLifetimes);
    IndexedClocksDefined(r.rotationLifetimes);
    IndexedClocksDefined(r.scaleLifetimes);
  }

  /** ClocksDefined stated index by index. */
  lemma IndexedClocksDefined(lts: seq<TweenLifetime>)
    requires forall j | 0 <= j < |lts| :: lts[j].ProgressDefined()
    ensures ClocksDefined(lts)
  {
  }

  /** Appending copies of a defined clock keeps every clock defined. */
  lemma RepeatedClocksDefined(lts: seq<TweenLifetime>, lt: TweenLifetime, n: nat)
    requires ClocksDefined(lts) && lt.ProgressDefined()
    ensures ClocksDefined(lts + Repeat(lt, n))
  {
    var r := lts + Repeat(lt, n);
    forall j | 0 <= j < |r|
      ensures r[j].ProgressDefined()
    {
      if j < |lts| {
        assert r[j] == lts[j] && lts[j] in lts;
      }
    }
    IndexedClocksDefined(r);
  }

  /** Removing entries keeps every clock left defined. */
  lemma RemovedClocksDefined(lts: seq<TweenLifetime>, start: int, n: int)
    requires 0 <= start && 0 <= n && start + n <= |lts| && ClocksDefined(lts)
    ensures ClocksDefined(RemoveRangeSeq(lts, start, n)) && (n == 1 ==> ClocksDefined(RemoveAtSeq(lts, start)))
  {
    var r := RemoveRangeSeq(lts, start, n);
    forall j | 0 <= j < |r|
      ensures r[j].ProgressDefined()
    {
      if j < start {
        assert r[j] == lts[j] && lts[j] in lts;
      } else {
        assert r[j] == lts[j + n] && lts[j + n] in lts;
      }
    }
    IndexedClocksDefined(r);
  }

  // ----- the insertion step of the batch sort -----

  /** Batch `j` and the one before it exchanged. */
  function SwapDown(b: seq<TweenBatch>, j: int): (r: seq<TweenBatch>)
    requires 0 < j < |b|
    ensures |r| == |b| && r[j - 1] == b[j] && r[j] == b[j - 1]
    ensures forall k | 0 <= k < |b| && k != j - 1 && k != j :: r[k] == b[k]
  {
    b[j - 1 := b[j]][j := b[j - 1]]
  }

  /**
   * Mid-insertion: the first i+1 batches are in start-index order except,
   * possibly, at the moving batch `j`, whose two neighbours are in order.
   */
  predicate InsertionState(b: seq<TweenBatch>, i: int, j: int)
  {
    0 <= j <= i < |b|
    && (forall k | 0 < k <= i && k != j :: b[k - 1].startIndex <= b[k].startIndex)
    && (0 < j < i ==> b[j - 1].startIndex <= b[j + 1].startIndex)
  }

  /** Moving batch `j` down one place past a larger start index keeps the insertion state and the multiset. */
  lemma SwapDownStep(b: seq<TweenBatch>, i: int, j: int)
    requires InsertionState(b, i, j) && 0 < j && b[j - 1].startIndex > b[j].startIndex
    ensures InsertionState(SwapDown(b, j), i, j - 1) && multiset(SwapDown(b, j)) == multiset(b)
  {
    var r := SwapDown(b, j);
    forall k | 0 < k <= i && k != j - 1
      ensures r[k - 1].startIndex <= r[k].startIndex
    {
    }
  }

  /** Two neighbours out of order: the list is not in start-index order. */
  lemma UnsortedAt(b: seq<TweenBatch>, j: int)
    requires 0 < j < |b| && b[j - 1].startIndex > b[j].startIndex
    ensures !SortedByStart(b)
  {
  }

  /** Once batch `j` has stopped moving, the first i+1 batches are in start-index order. */
  lemma InsertionDone(b: seq<TweenBatch>, i: int, j: int)
    requires InsertionState(b, i, j) && (j == 0 || b[j - 1].startIndex <= b[j].startIndex)
    ensures forall k | 0 < k <= i :: b[k - 1].startIndex <= b[k].startIndex
  {
  }

  // ----- the tweener -----

  class LegacyBatchTransformTweener {
    const base: TweenerBase
    var batches: seq<TweenBatch>
    var batchLifetimes: seq<TweenLifetime>
    var transforms: seq<Transform>
    var states: seq<LegacyTransformState>
    var positions: seq<TweenPosition>
    var rotations: seq<TweenRotation>
    var scales: seq<TweenScale>
    var positionLifetimes: seq<TweenLifetime>
    var rotationLifetimes: seq<TweenLifetime>
    var scaleLifetimes: seq<TweenLifetime>
    /** The job's copy of each slot's state and clocks, made by UpdateTweens and written back by LateUpdateTweens. */
    var nativeClocks: seq<SlotClocks>

    /** The eight slot lists as one value. */
    function Slots(): LegacySlots
      reads this
    {
      LegacySlots(transforms, states, positions, rotations, scales, positionLifetimes, rotationLifetimes,
        scaleLifetimes)
    }

    /** The batches, their clocks and the slots as one value. */
    function Data(): LegacyData
      reads this
    {
      LegacyData(batches, batchLifetimes, Slots())
    }

    /**
     * One clock per batch, aligned slot lists, batches tiling the slots
     * within C#'s `int` range, every clock able to report its progress, and a
     * scheduled job's copy no longer than the slot lists.
     */
    ghost predicate Valid()
      reads this, base`isJobScheduled
    {
      Data().Fits() && |transforms| <= IntMax && ClocksDefined(batchLifetimes) && SlotsDefined(Slots())
      && (forall c | c in nativeClocks :: c.Defined())
      && (base.isJobScheduled ==> |nativeClocks| <= |transforms|)
    }

    constructor ()
      ensures Valid() && fresh(base) && !base.isJobScheduled && base.deltaTime == 0.0
      ensures batches == [] && batchLifetimes == [] && Slots() == LegacySlots([], [], [], [], [], [], [], [])
    {
      base := new TweenerBase();
      batches := [];
      batchLifetimes := [];
      transforms := [];
      states := [];
      positions := [];
      rotations := [];
      scales := [];
      positionLifetimes := [];
      rotationLifetimes := [];
      scaleLifetimes := [];
      nativeClocks := [];
    }

    // ----- batch creation -----

    /**
     * Appends a batch over the next `length` slots, not completed, with its
     * clock, then appends `targets[startIndex .. startIndex+length-1]` and one
     * entry per slot to every other slot list. The new batch covers exactly
     * the new slots. A negative start index or length throws in
     * `_transforms.AddRange`, after the batch (its length cast to `uint`) and
     * its clock were appended and before any slot is.
     */
    method AddBatch(targets: seq<Transform>, startIndex: int, length: int, state: LegacyTransformState,
                    newPositions: seq<TweenPosition>, newRotations: seq<TweenRotation>, newScales: seq<TweenScale>,
                    positionLifetime: TweenLifetime, rotationLifetime: TweenLifetime, scaleLifetime: TweenLifetime,
                    batchLifetime: TweenLifetime) returns (thrown: bool)
      requires Valid() && startIndex + length <= |targets| && |transforms| + length <= IntMax
      requires 0 <= startIndex && 0 <= length ==>
        |newPositions| == length && |newRotations| == length && |newScales| == length
      requires positionLifetime.ProgressDefined() && rotationLifetime.ProgressDefined()
      requires scaleLifetime.ProgressDefined() && batchLifetime.ProgressDefined()
      modifies this`batches, this`batchLifetimes, this`transforms, this`states, this`positions, this`rotations
      modifies this`scales, this`positionLifetimes, this`rotationLifetimes, this`scaleLifetimes
      ensures thrown <==> startIndex < 0 || length < 0
      ensures batches == old(batches) + [TweenBatch(old(|transforms|), UintCast(length), false)]
      ensures batchLifetimes == old(batchLifetimes) + [batchLifetime]
      ensures thrown ==> Slots() == old(Slots())
      ensures !thrown ==> Valid()
      ensures !thrown ==> transforms == old(transforms) + targets[startIndex..startIndex + length]
      ensures !thrown ==> states == old(states) + Repeat(state, length)
      ensures !thrown ==> positions == old(positions) + newPositions && rotations == old(rotations) + newRotations
      ensures !thrown ==> scales == old(scales) + newScales
      ensures !thrown ==> positionLifetimes == old(positionLifetimes) + Repeat(positionLifetime, length)
      ensures !thrown ==> rotationLifetimes == old(rotationLifetimes) + Repeat(rotationLifetime, length)
      ensures !thrown ==> scaleLifetimes == old(scaleLifetimes) + Repeat(scaleLifetime, length)
    {
      var batch := TweenBatch(|transforms|, UintCast(length), false);
      if startIndex < 0 || length < 0 {
        batches := batches + [batch];
        batchLifetimes := batchLifetimes + [batchLifetime];
        return true;
      }
      LegacyTiledAppend(batches, |transforms|, batch);
      batches := batches + [batch];
      batchLifetimes := batchLifetimes + [batchLifetime];
      transforms := transforms + targets[startIndex..startIndex + length];
      AppendSlotData(state, newPositions, newRotations, newScales, positionLifetime, rotationLifetime, scaleLifetime);
      thrown := false;
    }

    /** The per-slot loop of batch creation: one entry per new slot in the seven lists besides the transforms. */
    method AppendSlotData(state: LegacyTransformState, newPositions: seq<TweenPosition>,
                          newRotations: seq<TweenRotation>, newScales: seq<TweenScale>,
                          positionLifetime: TweenLifetime, rotationLifetime: TweenLifetime,
                          scaleLifetime: TweenLifetime)
      requires |newRotations| == |newPositions| && |newScales| == |newPositions|
      requires ClocksDefined(positionLifetimes) && ClocksDefined(rotationLifetimes) && ClocksDefined(scaleLifetimes)
      requires positionLifetime.ProgressDefined() && rotationLifetime.ProgressDefined()
      requires scaleLifetime.ProgressDefined()
      modifies this`states, this`positions, this`rotations, this`scales
      modifies this`positionLifetimes, this`rotationLifetimes, this`scaleLifetimes
      ensures ClocksDefined(positionLifetimes) && ClocksDefined(rotationLifetimes) && ClocksDefined(scaleLifetimes)
      ensures states == old(states) + Repeat(state, |newPositions|)
      ensures positions == old(positions) + newPositions && rotations == old(rotations) + newRotations
      ensures scales == old(scales) + newScales
      ensures positionLifetimes == old(positionLifetimes) + Repeat(positionLifetime, |newPositions|)
      ensures rotationLifetimes == old(rotationLifetimes) + Repeat(rotationLifetime, |newPositions|)
      ensures scaleLifetimes == old(scaleLifetimes) + Repeat(scaleLifetime, |newPositions|)
    {
      var i := 0;
      while i < |newPositions|
        invariant 0 <= i <= |newPositions|
        invariant states == old(states) + Repeat(state, i)
        invariant positions == old(positions) + newPositions[..i]
        invariant rotations == old(rotations) + newRotations[..i]
        invariant scales == old(scales) + newScales[..i]
        invariant positionLifetimes == old(positionLifetimes) + Repeat(positionLifetime, i)
        invariant rotationLifetimes == old(rotationLifetimes) + Repeat(rotationLifetime, i)
        invariant scaleLifetimes == old(scaleLifetimes) + Repeat(scaleLifetime, i)
      {
        states := states + [state];
        positions := positions + [newPositions[i]];
        rotations := rotations + [newRotations[i]];
        scales := scales + [newScales[i]];
        positionLifetimes := positionLifetimes + [positionLifetime];
        rotationLifetimes := rotationLifetimes + [rotationLifetime];
        scaleLifetimes := scaleLifetimes + [scaleLifetime];
        RepeatSnoc(old(states), state, i);
        PrefixSnoc(old(positions), newPositions, i);
        PrefixSnoc(old(rotations), newRotations, i);
        PrefixSnoc(old(scales), newScales, i);
        RepeatSnoc(old(positionLifetimes), positionLifetime, i);
        RepeatSnoc(old(rotationLifetimes), rotationLifetime, i);
        RepeatSnoc(old(scaleLifetimes), scaleLifetime, i);
        i := i + 1;
      }
      assert newPositions[..i] == newPositions && newRotations[..i] == newRotations && newScales[..i] == newScales;
      RepeatedClocksDefined(old(positionLifetimes), positionLifetime, i);
      RepeatedClocksDefined(old(rotationLifetimes), rotationLifetime, i);
      RepeatedClocksDefined(old(scaleLifetimes), scaleLifetime, i);
    }

    /** BatchMove over whole arrays: tweens the positions of all `targets`, as one batch. */
    method BatchMove(targets: seq<Transform>, fromArray: seq<Float3>, toArray: seq<Float3>, duration: real,
                     spaceType: SpaceType, easeType: EaseType, loopType: LoopType, loopCount: int)
      requires Valid() && |targets| == |fromArray| == |toArray|
      requires |transforms| + |targets| <= IntMax
      modifies this`batches, this`batchLifetimes, this`transforms, this`states, this`positions, this`rotations
      modifies this`scales, this`positionLifetimes, this`rotationLifetimes, this`scaleLifetimes
      ensures Valid()
      ensures var lt := LegacyLifetime(duration, easeType, loopType, loopCount);
        batches == old(batches) + [TweenBatch(old(|transforms|), |targets|, false)]
        && batchLifetimes == old(batchLifetimes) + [lt]
        && positionLifetimes == old(positionLifetimes) + Repeat(lt, |targets|)
      ensures transforms == old(transforms) + targets
      ensures states == old(states) + Repeat(LegacyMoveState(spaceType), |targets|)
      ensures positions == old(positions) + PositionPairs(fromArray, toArray, 0, |targets|)
      ensures rotations == old(rotations) + Repeat(DefaultTweenRotation, |targets|)
      ensures scales == old(scales) + Repeat(DefaultTweenScale, |targets|)
      ensures rotationLifetimes == old(rotationLifetimes) + Repeat(DefaultLifetime, |targets|)
      ensures scaleLifetimes == old(scaleLifetimes) + Repeat(DefaultLifetime, |targets|)
    {
      var thrown := BatchMoveSlice(targets, fromArray, toArray, 0, |targets|,
        duration, spaceType, easeType, loopType, loopCount);
      assert targets[0..|targets|] == targets;
    }

    /** BatchMove over a slice: tweens the positions of `targets[startIndex ..]`, as one batch. */
    method BatchMoveSlice(targets: seq<Transform>, fromArray: seq<Float3>, toArray: seq<Float3>, startIndex: int,
                          length: int, duration: real, spaceType: SpaceType, easeType: EaseType, loopType: LoopType,
                          loopCount: int) returns (thrown: bool)
      requires Valid()
      requires SliceFits(|targets|, |fromArray|, |toArray|, startIndex, length)
      requires |transforms| + length <= IntMax
      modifies this`batches, this`batchLifetimes, this`transforms, this`states, this`positions, this`rotations
      modifies this`scales, this`positionLifetimes, this`rotationLifetimes, this`scaleLifetimes
      ensures thrown <==> startIndex < 0 || length < 0
      ensures var lt := LegacyLifetime(duration, easeType, loopType, loopCount);
        batches == old(batches) + [TweenBatch(old(|transforms|), UintCast(length), false)]
        && batchLifetimes == old(batchLifetimes) + [lt]
      ensures thrown ==> Slots() == old(Slots())
      ensures !thrown ==> Valid()
      ensures !thrown ==> var lt := LegacyLifetime(duration, easeType, loopType, loopCount);
        positionLifetimes == old(positionLifetimes) + Repeat(lt, length)
      ensures !thrown ==> transforms == old(transforms) + targets[startIndex..startIndex + length]
      ensures !thrown ==> states == old(states) + Repeat(LegacyMoveState(spaceType), length)
      ensures !thrown ==> positions == old(positions) + PositionPairs(fromArray, toArray, startIndex, length)
      ensures !thrown ==> rotations == old(rotations) + Repeat(DefaultTweenRotation, length)
      ensures !thrown ==> scales == old(scales) + Repeat(DefaultTweenScale, length)
      ensures !thrown ==> rotationLifetimes == old(rotationLifetimes) + Repeat(DefaultLifetime, length)
      ensures !thrown ==> scaleLifetimes == old(scaleLifetimes) + Repeat(DefaultLifetime, length)
    {
      var lt := LegacyLifetime(duration, easeType, loopType, loopCount);
      if startIndex < 0 || length < 0 {
        // the slot data is never read: `_transforms.AddRange` throws first
        thrown := AddBatch(targets, startIndex, length, LegacyMoveState(spaceType), [], [], [], lt, DefaultLifetime,
          DefaultLifetime, lt);
        return;
      }
      thrown := AddBatch(targets, startIndex, length, LegacyMoveState(spaceType),
        PositionPairs(fromArray, toArray, startIndex, length), Repeat(DefaultTweenRotation, length),
        Repeat(DefaultTweenScale, length), lt, DefaultLifetime, DefaultLifetime, lt);
    }

    /** BatchScale over whole arrays: tweens the scales of all `targets`, as one batch. */
    method BatchScale(targets: seq<Transform>, fromArray: seq<Float3>, toArray: seq<Float3>, duration: real,
                      spaceType: SpaceType, easeType: EaseType, loopType: LoopType, loopCount: int)
      requires Valid() && |targets| == |fromArray| == |toArray|
      requires |transforms| + |targets| <= IntMax
      modifies this`batches, this`batchLifetimes, this`transforms, this`states, this`positions, this`rotations
      modifies this`scales, this`positionLifetimes, this`rotationLifetimes, this`scaleLifetimes
      ensures Valid()
      ensures var lt := LegacyLifetime(duration, easeType, loopType, loopCount);
        batches == old(batches) + [TweenBatch(old(|transforms|), |targets|, false)]
        && batchLifetimes == old(batchLifetimes) + [lt]
        && scaleLifetimes == old(scaleLifetimes) + Repeat(lt, |targets|)
      ensures transforms == old(transforms) + targets
      ensures states == old(states) + Repeat(LegacyScaleState(spaceType), |targets|)
      ensures positions == old(positions) + Repeat(DefaultTweenPosition, |targets|)
      ensures rotations == old(rotations) + Repeat(DefaultTweenRotation, |targets|)
      ensures scales == old(scales) + ScalePairs(fromArray, toArray, 0, |targets|)
      ensures positionLifetimes == old(positionLifetimes) + Repeat(DefaultLifetime, |targets|)
      ensures rotationLifetimes == old(rotationLifetimes) + Repeat(DefaultLifetime, |targets|)
    {
      var thrown := BatchScaleSlice(targets, fromArray, toArray, 0, |targets|,
        duration, spaceType, easeType, loopType, loopCount);
      assert targets[0..|targets|] == targets;
    }

    /** BatchScale over a slice: tweens the scales of `targets[startIndex ..]`, as one batch. */
    method BatchScaleSlice(targets: seq<Transform>, fromArray: seq<Float3>, toArray: seq<Float3>, startIndex: int,
                           length: int, duration: real, spaceType: SpaceType, easeType: EaseType, loopType: LoopType,
                           loopCount: int) returns (thrown: bool)
      requires Valid()
      requires SliceFits(|targets|, |fromArray|, |toArray|, startIndex, length)
      requires |transforms| + length <= IntMax
      modifies this`batches, this`batchLifetimes, this`transforms, this`states, this`positions, this`rotations
      modifies this`scales, this`positionLifetimes, this`rotationLifetimes, this`scaleLifetimes
      ensures thrown <==> startIndex < 0 || length < 0
      ensures var lt := LegacyLifetime(duration, easeType, loopType, loopCount);
        batches == old(batches) + [TweenBatch(old(|transforms|), UintCast(length), false)]
        && batchLifetimes == old(batchLifetimes) + [lt]
      ensures thrown ==> Slots() == old(Slots())
      ensures !thrown ==> Valid()
      ensures !thrown ==> var lt := LegacyLifetime(duration, easeType, loopType, loopCount);
        scaleLifetimes == old(scaleLifetimes) + Repeat(lt, length)
      ensures !thrown ==> transforms == old(transforms) + targets[startIndex..startIndex + length]
      ensures !thrown ==> states == old(states) + Repeat(LegacyScaleState(spaceType), length)
      ensures !thrown ==> positions == old(positions) + Repeat(DefaultTweenPosition, length)
      ensures !thrown ==> rotations == old(rotations) + Repeat(DefaultTweenRotation, length)
      ensures !thrown ==> scales == old(scales) + ScalePairs(fromArray, toArray, startIndex, length)
      ensures !thrown ==> positionLifetimes == old(positionLifetimes) + Repeat(DefaultLifetime, length)
      ensures !thrown ==> rotationLifetimes == old(rotationLifetimes) + Repeat(DefaultLifetime, length)
    {
      var lt := LegacyLifetime(duration, easeType, loopType, loopCount);
      if startIndex < 0 || length < 0 {
        // the slot data is never read: `_transforms.AddRange` throws first
        thrown := AddBatch(targets, startIndex, length, LegacyScaleState(spaceType), [], [], [], DefaultLifetime,
          DefaultLifetime, lt, lt);
        return;
      }
      thrown := AddBatch(targets, startIndex, length, LegacyScaleState(spaceType),
        Repeat(DefaultTweenPosition, length), Repeat(DefaultTweenRotation, length),
        ScalePairs(fromArray, toArray, startIndex, length), DefaultLifetime, DefaultLifetime, lt, lt);
    }

    /**
     * BatchRotate over whole arrays: sets the rotation endpoints and clocks
     * of all `targets`, as one batch, but, as written, its slots enable
     * scaling rather than rotation.
     */
    method BatchRotate(targets: seq<Transform>, fromArray: seq<Quaternion>, toArray: seq<Quaternion>, duration: real,
                       spaceType: SpaceType, easeType: EaseType, loopType: LoopType, loopCount: int)
      requires Valid() && |targets| == |fromArray| == |toArray|
      requires |transforms| + |targets| <= IntMax
      modifies this`batches, this`batchLifetimes, this`transforms, this`states, this`positions, this`rotations
      modifies this`scales, this`positionLifetimes, this`rotationLifetimes, this`scaleLifetimes
      ensures Valid()
      ensures var lt := LegacyLifetime(duration, easeType, loopType, loopCount);
        batches == old(batches) + [TweenBatch(old(|transforms|), |targets|, false)]
        && batchLifetimes == old(batchLifetimes) + [lt]
        && rotationLifetimes == old(rotationLifetimes) + Repeat(lt, |targets|)
      ensures transforms == old(transforms) + targets
      ensures states == old(states) + Repeat(LegacyRotateState(spaceType), |targets|)
      ensures positions == old(positions) + Repeat(DefaultTweenPosition, |targets|)
      ensures rotations == old(rotations) + RotationPairs(fromArray, toArray, 0, |targets|)
      ensures scales == old(scales) + Repeat(DefaultTweenScale, |targets|)
      ensures positionLifetimes == old(positionLifetimes) + Repeat(DefaultLifetime, |targets|)
      ensures scaleLifetimes == old(scaleLifetimes) + Repeat(DefaultLifetime, |targets|)
    {
      var thrown := BatchRotateSlice(targets, fromArray, toArray, 0, |targets|,
        duration, spaceType, easeType, loopType, loopCount);
      assert targets[0..|targets|] == targets;
    }

    /** BatchRotate over a slice of `targets`, with the same scaling flag as written. */
    method BatchRotateSlice(targets: seq<Transform>, fromArray: seq<Quaternion>, toArray: seq<Quaternion>,
                            startIndex: int, length: int, duration: real, spaceType: SpaceType, easeType: EaseType,
                            loopType: LoopType, loopCount: int) returns (thrown: bool)
      requires Valid()
      requires SliceFits(|targets|, |fromArray|, |toArray|, startIndex, length)
      requires |transforms| + length <= IntMax
      modifies this`batches, this`batchLifetimes, this`transforms, this`states, this`positions, this`rotations
      modifies this`scales, this`positionLifetimes, this`rotationLifetimes, this`scaleLifetimes
      ensures thrown <==> startIndex < 0 || length < 0
      ensures var lt := LegacyLifetime(duration, easeType, loopType, loopCount);
        batches == old(batches) + [TweenBatch(old(|transforms|), UintCast(length), false)]
        && batchLifetimes == old(batchLifetimes) + [lt]
      ensures thrown ==> Slots() == old(Slots())
      ensures !thrown ==> Valid()
      ensures !thrown ==> var lt := LegacyLifetime(duration, easeType, loopType, loopCount);
        rotationLifetimes == old(rotationLifetimes) + Repeat(lt, length)
      ensures !thrown ==> transforms == old(transforms) + targets[startIndex..startIndex + length]
      ensures !thrown ==> states == old(states) + Repeat(LegacyRotateState(spaceType), length)
      ensures !thrown ==> positions == old(positions) + Repeat(DefaultTweenPosition, length)
      ensures !thrown ==> rotations == old(rotations) + RotationPairs(fromArray, toArray, startIndex, length)
      ensures !thrown ==> scales == old(scales) + Repeat(DefaultTweenScale, length)
      ensures !thrown ==> positionLifetimes == old(positionLifetimes) + Repeat(DefaultLifetime, length)
      ensures !thrown ==> scaleLifetimes == old(scaleLifetimes) + Repeat(DefaultLifetime, length)
    {
      var lt := LegacyLifetime(duration, easeType, loopType, loopCount);
      if startIndex < 0 || length < 0 {
        // the slot data is never read: `_transforms.AddRange` throws first
        thrown := AddBatch(targets, startIndex, length, LegacyRotateState(spaceType), [], [], [], DefaultLifetime, lt,
          DefaultLifetime, lt);
        return;
      }
      thrown := AddBatch(targets, startIndex, length, LegacyRotateState(spaceType),
        Repeat(DefaultTweenPosition, length), RotationPairs(fromArray, toArray, startIndex, length),
        Repeat(DefaultTweenScale, length), DefaultLifetime, lt, DefaultLifetime, lt);
    }

    /**
     * BatchUpdateTransforms over whole arrays: tweens position, rotation and
     * scale of all `targets` at once; each slot's three clocks start as
     * copies of one lifetime.
     */
    method BatchUpdateTransforms(targets: seq<Transform>, fromPosArray: seq<Float3>, toPosArray: seq<Float3>,
                                 fromRotArray: seq<Quaternion>, toRotArray: seq<Quaternion>,
                                 fromScaleArray: seq<Float3>, toScaleArray: seq<Float3>, duration: real,
                                 spaceType: SpaceType, easeType: EaseType, loopType: LoopType, loopCount: int)
      requires Valid() && |targets| == |fromPosArray| == |toPosArray| == |fromRotArray| == |toRotArray|
      requires |toRotArray| == |fromScaleArray| == |toScaleArray|
      requires |transforms| + |targets| <= IntMax
      modifies this`batches, this`batchLifetimes, this`transforms, this`states, this`positions, this`rotations
      modifies this`scales, this`positionLifetimes, this`rotationLifetimes, this`scaleLifetimes
      ensures Valid()
      ensures var lt := LegacyLifetime(duration, easeType, loopType, loopCount);
        batches == old(batches) + [TweenBatch(old(|transforms|), |targets|, false)]
        && batchLifetimes == old(batchLifetimes) + [lt]
        && positionLifetimes == old(positionLifetimes) + Repeat(lt, |targets|)
        && rotationLifetimes == old(rotationLifetimes) + Repeat(lt, |targets|)
        && scaleLifetimes == old(scaleLifetimes) + Repeat(lt, |targets|)
      ensures transforms == old(transforms) + targets
      ensures states == old(states) + Repeat(LegacyUpdateTransformsState(spaceType), |targets|)
      ensures positions == old(positions) + PositionPairs(fromPosArray, toPosArray, 0, |targets|)
      ensures rotations == old(rotations) + RotationPairs(fromRotArray, toRotArray, 0, |targets|)
      ensures scales == old(scales) + ScalePairs(fromScaleArray, toScaleArray, 0, |targets|)
    {
      var thrown := BatchUpdateTransformsSlice(targets, fromPosArray, toPosArray, fromRotArray, toRotArray,
        fromScaleArray, toScaleArray, 0, |targets|, duration, spaceType, easeType, loopType, loopCount);
      assert targets[0..|targets|] == targets;
    }

    /** BatchUpdateTransforms over a slice of `targets`; this overload checks all seven arrays. */
    method BatchUpdateTransformsSlice(targets: seq<Transform>, fromPosArray: seq<Float3>, toPosArray: seq<Float3>,
                                      fromRotArray: seq<Quaternion>, toRotArray: seq<Quaternion>,
                                      fromScaleArray: seq<Float3>, toScaleArray: seq<Float3>, startIndex: int,
                                      length: int, duration: real, spaceType: SpaceType, easeType: EaseType,
                                      loopType: LoopType, loopCount: int) returns (thrown: bool)
      requires Valid()
      requires SliceFits(|targets|, |fromPosArray|, |toPosArray|, startIndex, length)
      requires SliceFits(|fromRotArray|, |toRotArray|, |fromScaleArray|, startIndex, length)
      requires |toScaleArray| >= startIndex + length
      requires |transforms| + length <= IntMax
      modifies this`batches, this`batchLifetimes, this`transforms, this`states, this`positions, this`rotations
      modifies this`scales, this`positionLifetimes, this`rotationLifetimes, this`scaleLifetimes
      ensures thrown <==> startIndex < 0 || length < 0
      ensures var lt := LegacyLifetime(duration, easeType, loopType, loopCount);
        batches == old(batches) + [TweenBatch(old(|transforms|), UintCast(length), false)]
        && batchLifetimes == old(batchLifetimes) + [lt]
      ensures thrown ==> Slots() == old(Slots())
      ensures !thrown ==> Valid()
      ensures !thrown ==> var lt := LegacyLifetime(duration, easeType, loopType, loopCount);
        positionLifetimes == old(positionLifetimes) + Repeat(lt, length)
        && rotationLifetimes == old(rotationLifetimes) + Repeat(lt, length)
        && scaleLifetimes == old(scaleLifetimes) + Repeat(lt, length)
      ensures !thrown ==> transforms == old(transforms) + targets[startIndex..startIndex + length]
      ensures !thrown ==> states == old(states) + Repeat(LegacyUpdateTransformsState(spaceType), length)
      ensures !thrown ==> positions == old(positions) + PositionPairs(fromPosArray, toPosArray, startIndex, length)
      ensures !thrown ==> rotations == old(rotations) + RotationPairs(fromRotArray, toRotArray, startIndex, length)
      ensures !thrown ==> scales == old(scales) + ScalePairs(fromScaleArray, toScaleArray, startIndex, length)
    {
      var lt := LegacyLifetime(duration, easeType, loopType, loopCount);
      if startIndex < 0 || length < 0 {
        // the slot data is never read: `_transforms.AddRange` throws first
        thrown := AddBatch(targets, startIndex, length, LegacyUpdateTransformsState(spaceType), [], [], [], lt, lt,
          lt, lt);
        return;
      }
      thrown := AddBatch(targets, startIndex, length, LegacyUpdateTransformsState(spaceType),
        PositionPairs(fromPosArray, toPosArray, startIndex, length),
        RotationPairs(fromRotArray, toRotArray, startIndex, length),
        ScalePairs(fromScaleArray, toScaleArray, startIndex, length), lt, lt, lt, lt);
    }

    // ----- Update -----

    /**
     * The batch loop of UpdateTweens: every batch clock advances by the
     * frame's delta time, and a batch whose clock reached progress 1 is
     * marked completed, exactly as ProcessBatchJob does it at one index.
     */
    method AdvanceBatches()
      requires Valid() && base.deltaTime >= 0.0
      modifies this`batches, this`batchLifetimes
      ensures Valid() && |batches| == old(|batches|)
      ensures forall k | 0 <= k < |batches| ::
        BatchClock(batchLifetimes[k], batches[k]) == old(AdvanceBatch(BatchClock(batchLifetimes[k], batches[k]), base.deltaTime))
    {
      ghost var spans := Spans(batches);
      var i := 0;
      while i < |batchLifetimes|
        invariant 0 <= i <= |batches| && |batchLifetimes| == |batches| == old(|batches|)
        invariant Spans(batches) == spans && ClocksDefined(batchLifetimes)
        invariant forall k | 0 <= k < |batches| ::
          BatchClock(batchLifetimes[k], batches[k])
            == if k < i then old(AdvanceBatch(BatchClock(batchLifetimes[k], batches[k]), base.deltaTime))
               else old(BatchClock(batchLifetimes[k], batches[k]))
      {
        assert batchLifetimes[i] in batchLifetimes;
        var batchLifetime := batchLifetimes[i].Update(base.deltaTime);
        UpdateKeepsProgressDefined(batchLifetimes[i], base.deltaTime);
        ghost var before := batchLifetimes;
        batchLifetimes := batchLifetimes[i := batchLifetime];
        forall lt | lt in batchLifetimes
          ensures lt.ProgressDefined()
        {
          var k :| 0 <= k < |batchLifetimes| && batchLifetimes[k] == lt;
          if k != i {
            assert before[k] in before;
          }
        }
        if batchLifetime.GetProgress() >= 1.0 {
          batches := batches[i := batches[i].(isCompleted := true)];
        }
        i := i + 1;
      }
    }

    /**
     * UpdateTweens: with no slots nothing happens. Otherwise the batch clocks
     * advance and batches that reached their end are marked completed, the
     * job's copy of the slots is made and advanced by the tween job, and the
     * job is marked scheduled. The managed slot lists are not touched.
     */
    method UpdateTweens(curve: (EaseType, real, real) -> real,
                        rotate: (TweenRotation, real, bool, RotateMode) -> Quaternion)
      requires Valid() && base.deltaTime >= 0.0
      modifies this`batches, this`batchLifetimes, this`nativeClocks, base`isJobScheduled
      ensures Valid()
      ensures old(|transforms|) == 0 ==>
        batches == old(batches) && batchLifetimes == old(batchLifetimes) && nativeClocks == old(nativeClocks)
        && base.isJobScheduled == old(base.isJobScheduled)
      ensures old(|transforms|) > 0 ==>
        base.isJobScheduled && |nativeClocks| == |transforms| && |batches| == old(|batches|)
        && (forall j | 0 <= j < |transforms| :: nativeClocks[j] == AdvanceSlot(Slots().Clocks(j), base.deltaTime))
        && forall k | 0 <= k < |batches| ::
             BatchClock(batchLifetimes[k], batches[k])
               == old(AdvanceBatch(BatchClock(batchLifetimes[k], batches[k]), base.deltaTime))
    {
      if |transforms| == 0 {
        return;
      }
      var clocks := RunTweenJob(Slots(), base.deltaTime, curve, rotate);
      AdvanceBatches();
      nativeClocks := clocks;
      forall c | c in nativeClocks
        ensures c.Defined()
      {
        var j :| 0 <= j < |nativeClocks| && nativeClocks[j] == c;
        assert Slots().Clocks(j).Defined() by {
          assert positionLifetimes[j] in positionLifetimes;
          assert rotationLifetimes[j] in rotationLifetimes;
          assert scaleLifetimes[j] in scaleLifetimes;
        }
      }
      base.isJobScheduled := true;
    }

    /** The frame's Update: stores the frame's delta time, then runs UpdateTweens. */
    method Update(deltaTime: real, curve: (EaseType, real, real) -> real,
                  rotate: (TweenRotation, real, bool, RotateMode) -> Quaternion)
      requires Valid() && deltaTime >= 0.0
      modifies this`batches, this`batchLifetimes, this`nativeClocks, base`isJobScheduled, base`deltaTime
      ensures Valid() && base.deltaTime == deltaTime
      ensures old(|transforms|) > 0 ==>
        base.isJobScheduled && |nativeClocks| == |transforms| && |batches| == old(|batches|)
        && (forall j | 0 <= j < |transforms| :: nativeClocks[j] == AdvanceSlot(Slots().Clocks(j), deltaTime))
        && forall k | 0 <= k < |batches| ::
             BatchClock(batchLifetimes[k], batches[k])
               == old(AdvanceBatch(BatchClock(batchLifetimes[k], batches[k]), deltaTime))
    {
      base.deltaTime := deltaTime;
      UpdateTweens(curve, rotate);
    }

    // ----- LateUpdate -----

    /**
     * LateUpdateTweens: nothing unless a job was scheduled. Otherwise clears
     * the flag, writes the job's states and clocks back, sorts the batches by
     * start index (which changes nothing, since tiled batches are in order)
     * and compacts: the result is the compaction of the written-back data.
     */
    method LateUpdateTweens()
      requires Valid()
      modifies this`batches, this`batchLifetimes, this`transforms, this`states, this`positions, this`rotations
      modifies this`scales, this`positionLifetimes, this`rotationLifetimes, this`scaleLifetimes
      modifies base`isJobScheduled
      ensures Valid() && !base.isJobScheduled
      ensures !old(base.isJobScheduled) ==> Data() == old(Data())
      ensures old(base.isJobScheduled) ==>
        var w := old(Data().(slots := WriteBack(Slots(), nativeClocks)));
        w.Fits() && Data() == Compaction(w)
    {
      if !base.isJobScheduled {
        return;
      }
      base.isJobScheduled := false;
      CopyBack();
      TiledIsSorted(batches, |transforms|);
      SortBatches();
      CompactBatches();
    }

    /** The copy back from the job: WriteBack of the slot lists with the job's copy. */
    method CopyBack()
      requires Valid() && |nativeClocks| <= |transforms|
      modifies this`states, this`positionLifetimes, this`rotationLifetimes, this`scaleLifetimes
      ensures Valid() && Slots() == old(WriteBack(Slots(), nativeClocks))
    {
      WriteBackDefined(Slots(), nativeClocks);
      var w := WriteBack(Slots(), nativeClocks);
      states := w.states;
      positionLifetimes := w.positionLifetimes;
      rotationLifetimes := w.rotationLifetimes;
      scaleLifetimes := w.scaleLifetimes;
    }

    /**
     * Array.Sort of the batch list by start index (the batch clocks are not
     * moved with it), as a stable insertion sort: afterwards the batches are
     * in start-index order and a permutation of what they were, and a list
     * already in order is left exactly as it was.
     */
    method SortBatches()
      modifies this`batches
      ensures SortedByStart(batches) && multiset(batches) == multiset(old(batches))
      ensures SortedByStart(old(batches)) ==> batches == old(batches)
    {
      var i := 0;
      while i < |batches|
        invariant 0 <= i <= |batches| == old(|batches|)
        invariant forall k | 0 < k < i :: batches[k - 1].startIndex <= batches[k].startIndex
        invariant multiset(batches) == multiset(old(batches))
        invariant SortedByStart(old(batches)) ==> batches == old(batches)
      {
        InsertBatch(i);
        i := i + 1;
      }
    }

    /** One step of the sort: batch `i` moves down past every earlier batch with a larger start index. */
    method InsertBatch(i: int)
      requires 0 <= i < |batches|
      requires forall k | 0 < k < i :: batches[k - 1].startIndex <= batches[k].startIndex
      modifies this`batches
      ensures |batches| == old(|batches|) && multiset(batches) == multiset(old(batches))
      ensures forall k | 0 < k <= i :: batches[k - 1].startIndex <= batches[k].startIndex
      ensures SortedByStart(old(batches)) ==> batches == old(batches)
    {
      var b0 := batches;
      var b := b0;
      var j := i;
      assert InsertionState(b, i, j);
      while j > 0 && b[j - 1].startIndex > b[j].startIndex
        invariant InsertionState(b, i, j) && |b| == |b0| && multiset(b) == multiset(b0)
        invariant SortedByStart(b0) ==> b == b0
      {
        UnsortedAt(b, j);
        SwapDownStep(b, i, j);
        b := SwapDown(b, j);
        j := j - 1;
      }
      InsertionDone(b, i, j);
      batches := b;
    }

    /** The compaction loop, from the last batch down: Compaction of the data. */
    method CompactBatches()
      requires Valid() && !base.isJobScheduled
      modifies this`batches, this`batchLifetimes, this`transforms, this`states, this`positions, this`rotations
      modifies this`scales, this`positionLifetimes, this`rotationLifetimes, this`scaleLifetimes
      ensures Valid() && Data() == old(Compaction(Data()))
    {
      ghost var target := Compaction(Data());
      var i := |batches| - 1;
      while i >= 0
        invariant Valid() && -1 <= i < |batches|
        invariant Compacted(Data(), i + 1) == target
        decreases i
      {
        if batches[i].isCompleted {
          RemoveBatchAt(i);
        }
        i := i - 1;
      }
    }

    /**
     * Removes completed batch `i`, as RemoveCompleted states it: its slot
     * range leaves every slot list, every later batch's start index drops by
     * its length, and its batch entry and clock are removed.
     */
    method RemoveBatchAt(i: int)
      requires Valid() && !base.isJobScheduled && 0 <= i < |batches|
      modifies this`batches, this`batchLifetimes, this`transforms, this`states, this`positions, this`rotations
      modifies this`scales, this`positionLifetimes, this`rotationLifetimes, this`scaleLifetimes
      ensures Valid() && Data() == old(RemoveCompleted(Data(), i))
    {
      ghost var d := Data();
      var batch := batches[i];
      TiledBatchEnd(Spans(batches), |transforms|, i);
      RemoveSlots(batch.startIndex, batch.length);
      ShiftLaterBatches(i, batch.length);
      ghost var shifted := batches;
      batches := RemoveAtSeq(batches, i);
      batchLifetimes := RemoveAtSeq(batchLifetimes, i);
      assert batches == LegacyRemoveBatch(d.batches, i) by {
        assert shifted[..i] == d.batches[..i];
        assert shifted[i + 1..] == LegacyShiftDown(d.batches[i + 1..], batch.length);
      }
      RemovedClocksDefined(d.batchLifetimes, i, 1);
      assert Data() == RemoveCompleted(d, i);
    }

    /** RemoveRange(start, length) on every slot list. */
    method RemoveSlots(start: int, length: int)
      requires Slots().Aligned() && SlotsDefined(Slots())
      requires 0 <= start && 0 <= length && start + length <= |transforms|
      modifies this`transforms, this`states, this`positions, this`rotations, this`scales
      modifies this`positionLifetimes, this`rotationLifetimes, this`scaleLifetimes
      ensures Slots() == old(Slots().RemoveRange(start, length)) && SlotsDefined(Slots())
    {
      RemovedClocksDefined(positionLifetimes, start, length);
      RemovedClocksDefined(rotationLifetimes, start, length);
      RemovedClocksDefined(scaleLifetimes, start, length);
      transforms := RemoveRangeSeq(transforms, start, length);
      states := RemoveRangeSeq(states, start, length);
      positions := RemoveRangeSeq(positions, start, length);
      rotations := RemoveRangeSeq(rotations, start, length);
      scales := RemoveRangeSeq(scales, start, length);
      positionLifetimes := RemoveRangeSeq(positionLifetimes, start, length);
      rotationLifetimes := RemoveRangeSeq(rotationLifetimes, start, length);
      scaleLifetimes := RemoveRangeSeq(scaleLifetimes, start, length);
    }

    /** The shift loop of compaction: every batch after `i` has its start index lowered by `d` (a `uint` subtraction). */
    method ShiftLaterBatches(i: int, d: uint32)
      requires 0 <= i < |batches|
      modifies this`batches
      ensures batches == old(batches[..i + 1] + LegacyShiftDown(batches[i + 1..], d))
    {
      ghost var b0 := batches;
      var j := i + 1;
      while j < |batches|
        invariant i + 1 <= j <= |batches| == |b0|
        invariant forall k | 0 <= k < |batches| ::
          batches[k] == (if i < k < j then b0[k].(startIndex := UintSub(b0[k].startIndex, d)) else b0[k])
      {
        var laterTweenBatch := batches[j];
        laterTweenBatch := laterTweenBatch.(startIndex := UintSub(laterTweenBatch.startIndex, d));
        batches := batches[j := laterTweenBatch];
        j := j + 1;
      }
      assert batches == b0[..i + 1] + LegacyShiftDown(b0[i + 1..], d);
    }
  }
}
