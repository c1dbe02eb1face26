// The two parallel jobs of the older revision.
// ProcessTweenJob.Execute(i) advances the enabled channels of slot i and
// writes their interpolated outputs; ProcessBatchJob.Execute(k) advances the
// clock of batch k and marks it completed at the end of its run. Each index
// touches only its own entries, so the job system may run them in any order:
// `Run` executes them in an arbitrary order and is proved to give the same
// result as executing each index once on the original data.

module Jobs {
  import opened TweenTypes
  import opened TweenValues
  import opened Lifetime
  import opened TransformState
  import opened BatchState

  /** A float result of a job: a number, or NaN when the ease divides 0 by a zero duration. */
  datatype Sample<T> = Value(v: T) | NaN

  /** Update keeps GetProgress defined, so a clock can be advanced frame after frame. */
  lemma UpdateKeepsProgressDefined(lt: TweenLifetime, deltaTime: real)
    requires deltaTime >= 0.0 && lt.ProgressDefined()
    ensures lt.Update(deltaTime).ProgressDefined()
  {
    AdvancedKeepsProgressDefined(lt, deltaTime);
  }

  /** The eased progress of a clock as the job computes it in floats. */
  function EaseSample(lt: TweenLifetime, curve: (EaseType, real, real) -> real): (r: Sample<real>)
    ensures r.NaN? <==> lt.duration == 0.0
  {
    if lt.duration == 0.0 then NaN else Value(lt.GetEase(curve))
  }

  // ----- ProcessTweenJob -----

  /** What the job copies back to the tweener for one slot: its state and its three clocks. */
  datatype SlotClocks = SlotClocks(
    state: LegacyTransformState,
    positionLifetime: TweenLifetime,
    rotationLifetime: TweenLifetime,
    scaleLifetime: TweenLifetime)
  {
    /** Every clock can report its progress. */
    predicate Defined()
    {
      positionLifetime.ProgressDefined() && rotationLifetime.ProgressDefined() && scaleLifetime.ProgressDefined()
    }

    /** The clock driving `channel`. */
    function Clock(channel: TransformChannel): TweenLifetime
    {
      match channel
      case Movement => positionLifetime
      case Rotation => rotationLifetime
      case Scaling => scaleLifetime
    }
  }

  /** Whether `channel` is switched on in `s`. */
  predicate Enabled(s: LegacyTransformState, channel: TransformChannel)
  {
    match channel
    case Movement => s.IsMovementEnabled()
    case Rotation => s.IsRotationEnabled()
    case Scaling => s.IsScalingEnabled()
  }

  /** The last enabled channel in the order movement, rotation, scaling. */
  function LastEnabled(s: LegacyTransformState): (r: Option<TransformChannel>)
    ensures r.Some? ==> Enabled(s, r.value)
    ensures r.None? <==> !Enabled(s, Movement) && !Enabled(s, Rotation) && !Enabled(s, Scaling)
    ensures r == Some(Movement) ==> !Enabled(s, Rotation) && !Enabled(s, Scaling)
    ensures r == Some(Rotation) ==> !Enabled(s, Scaling)
  {
    if s.IsScalingEnabled() then Some(Scaling)
    else if s.IsRotationEnabled() then Some(Rotation)
    else if s.IsMovementEnabled() then Some(Movement)
    else None
  }

  /**
   * Execute(i) on the slot's state and clocks: a stopped slot is left alone;
   * otherwise each enabled channel's clock advances once and the slot goes on
   * playing exactly when the last enabled channel has not reached progress 1.
   */
  function AdvanceSlot(c: SlotClocks, deltaTime: real): (r: SlotClocks)
    requires deltaTime >= 0.0 && c.Defined()
    ensures r.Defined()
    ensures !c.state.isPlaying ==> r == c
    ensures c.state.isPlaying ==> forall channel ::
      r.Clock(channel) == if Enabled(c.state, channel) then c.Clock(channel).Update(deltaTime) else c.Clock(channel)
    ensures c.state.isPlaying ==>
      r.state == c.state.(isPlaying := match LastEnabled(c.state)
                                       case None => false
                                       case Some(channel) => r.Clock(channel).GetProgress() < 1.0)
  {
    UpdateKeepsProgressDefined(c.positionLifetime, deltaTime);
    UpdateKeepsProgressDefined(c.rotationLifetime, deltaTime);
    UpdateKeepsProgressDefined(c.scaleLifetime, deltaTime);
    if !c.state.isPlaying then c
    else
      var s := c.state;
      var p := if s.IsMovementEnabled() then c.positionLifetime.Update(deltaTime) else c.positionLifetime;
      var playing1 := if s.IsMovementEnabled() then p.GetProgress() < 1.0 else false;
      var q := if s.IsRotationEnabled() then c.rotationLifetime.Update(deltaTime) else c.rotationLifetime;
      var playing2 := if s.IsRotationEnabled() then q.GetProgress() < 1.0 else playing1;
      var u := if s.IsScalingEnabled() then c.scaleLifetime.Update(deltaTime) else c.scaleLifetime;
      var playing3 := if s.IsScalingEnabled() then u.GetProgress() < 1.0 else playing2;
      SlotClocks(s.(isPlaying := playing3), p, q, u)
  }

  /** A slot that the job has stopped stays exactly as it is on every later frame. */
  lemma StoppedSlotIsFrozen(c: SlotClocks, deltaTime: real, later: real)
    requires deltaTime >= 0.0 && later >= 0.0 && c.Defined()
    requires !AdvanceSlot(c, deltaTime).state.isPlaying
    ensures AdvanceSlot(AdvanceSlot(c, deltaTime), later) == AdvanceSlot(c, deltaTime)
  {
  }

  /** A slot with no channel enabled stops on its first frame and changes nothing else. */
  lemma NoChannelStops(c: SlotClocks, deltaTime: real)
    requires deltaTime >= 0.0 && c.Defined() && LastEnabled(c.state).None?
    ensures AdvanceSlot(c, deltaTime) == c.(state := c.state.(isPlaying := false))
  {
    var r := AdvanceSlot(c, deltaTime);
    if c.state.isPlaying {
      assert r.Clock(Movement) == c.Clock(Movement);
      assert r.Clock(Rotation) == c.Clock(Rotation);
      assert r.Clock(Scaling) == c.Clock(Scaling);
    }
  }

  /**
   * A playing movement-only slot without looping, on a clock longer than the
   * progress threshold, stops exactly on the frame its clock reaches the duration.
   */
  lemma MovementSlotStopsAtEnd(c: SlotClocks, deltaTime: real)
    requires deltaTime >= 0.0 && c.Defined() && c.state.isPlaying
    requires c.state.isMovementEnabled && !c.state.isRotationEnabled && !c.state.isScalingEnabled
    requires c.positionLifetime.loopType == NoLoop && c.positionLifetime.InRange()
    requires c.positionLifetime.duration > Epsilon
    ensures AdvanceSlot(c, deltaTime).state.isPlaying <==> c.positionLifetime.current + deltaTime < c.positionLifetime.duration
  {
    var lt := c.positionLifetime;
    var r := AdvanceSlot(c, deltaTime);
    assert r.Clock(Movement) == lt.Update(deltaTime);
    var a := lt.(current := Min(lt.current + deltaTime, lt.duration));
    assert lt.Update(deltaTime) == a;
    assert a.InRange();
  }

  /** The interpolated outputs of one slot; a channel the job does not write keeps its old output. */
  datatype SlotOutputs = SlotOutputs(position: Sample<Float3>, rotation: Sample<Quaternion>, scale: Sample<Float3>)

  /** The whole of what Execute(i) writes for one slot. */
  datatype SlotView = SlotView(clocks: SlotClocks, outputs: SlotOutputs)

  /** The read-only inputs of one slot: the endpoints of its three channels. */
  datatype SlotEndpoints = SlotEndpoints(position: TweenFloat3, rotation: TweenRotation, scale: TweenFloat3)

  /**
   * Execute(i) on a whole slot. Each output of an enabled channel is the
   * channel's interpolation at the eased progress of its advanced clock;
   * rotation goes through the caller-supplied `rotate` (Quaternion.Lerp and
   * Quaternion.Euler are not modelled).
   */
  function ExecuteSlot(v: SlotView, e: SlotEndpoints, deltaTime: real,
                       curve: (EaseType, real, real) -> real,
                       rotate: (TweenRotation, real, bool, RotateMode) -> Quaternion): (r: SlotView)
    requires deltaTime >= 0.0 && v.clocks.Defined()
    ensures r.clocks == AdvanceSlot(v.clocks, deltaTime)
    ensures !v.clocks.state.isPlaying ==> r == v
    ensures v.clocks.state.isPlaying && Enabled(v.clocks.state, Movement) ==>
      r.outputs.position == match EaseSample(r.clocks.positionLifetime, curve)
                            case NaN => NaN
                            case Value(ease) => Value(e.position.Lerp(ease, r.clocks.positionLifetime.isReversed))
    ensures v.clocks.state.isPlaying && Enabled(v.clocks.state, Scaling) ==>
      r.outputs.scale == match EaseSample(r.clocks.scaleLifetime, curve)
                         case NaN => NaN
                         case Value(ease) => Value(e.scale.Lerp(ease, r.clocks.scaleLifetime.isReversed))
    ensures !Enabled(v.clocks.state, Movement) ==> r.outputs.position == v.outputs.position
    ensures !Enabled(v.clocks.state, Rotation) ==> r.outputs.rotation == v.outputs.rotation
    ensures !Enabled(v.clocks.state, Scaling) ==> r.outputs.scale == v.outputs.scale
  {
    var c := AdvanceSlot(v.clocks, deltaTime);
    var s := v.clocks.state;
    if !s.isPlaying then v
    else
      var position :=
        if !s.IsMovementEnabled() then v.outputs.position
        else if c.positionLifetime.duration == 0.0 then NaN
        else Value(e.position.Lerp(c.positionLifetime.GetEase(curve), c.positionLifetime.isReversed));
      var rotation :=
        if !s.IsRotationEnabled() then v.outputs.rotation
        else if c.rotationLifetime.duration == 0.0 then NaN
        else Value(rotate(e.rotation, c.rotationLifetime.GetEase(curve), c.rotationLifetime.isReversed, s.GetRotateMode()));
      var scale :=
        if !s.IsScalingEnabled() then v.outputs.scale
        else if c.scaleLifetime.duration == 0.0 then NaN
        else Value(e.scale.Lerp(c.scaleLifetime.GetEase(curve), c.scaleLifetime.isReversed));
      SlotView(c, SlotOutputs(position, rotation, scale))
  }

  /** `order` lists every index below `n` exactly once: how the job system runs a parallel-for. */
  predicate IsSchedule(order: seq<int>, n: int)
  {
    |order| == n
    && (forall k | 0 <= k < |order| :: 0 <= order[k] < n)
    && (forall a, b | 0 <= a < b < |order| :: order[a] != order[b])
    && (forall j | 0 <= j < n :: j in order)
  }

  /** The job over native arrays, one entry per slot. */
  class ProcessTweenJob {
    const tweenPositions: array<TweenFloat3>
    const tweenRotations: array<TweenRotation>
    const tweenScales: array<TweenFloat3>
    const positions: array<Sample<Float3>>
    const rotations: array<Sample<Quaternion>>
    const scales: array<Sample<Float3>>
    const tweenPositionLifetimes: array<TweenLifetime>
    const tweenRotationLifetimes: array<TweenLifetime>
    const tweenScaleLifetimes: array<TweenLifetime>
    const tweenStates: array<LegacyTransformState>
    const deltaTime: real
    const curve: (EaseType, real, real) -> real
    const rotate: (TweenRotation, real, bool, RotateMode) -> Quaternion

    /** All arrays have one entry per slot, and the arrays the job writes are distinct. */
    predicate Valid()
    {
      var n := tweenStates.Length;
      tweenPositions.Length == n && tweenRotations.Length == n && tweenScales.Length == n
      && positions.Length == n && rotations.Length == n && scales.Length == n
      && tweenPositionLifetimes.Length == n && tweenRotationLifetimes.Length == n && tweenScaleLifetimes.Length == n
      && positions != scales
      && tweenPositionLifetimes != tweenRotationLifetimes
      && tweenPositionLifetimes != tweenScaleLifetimes
      && tweenRotationLifetimes != tweenScaleLifetimes
      && deltaTime >= 0.0
    }

    constructor (tweenPositions: array<TweenFloat3>, tweenRotations: array<TweenRotation>, tweenScales: array<TweenFloat3>,
                 positions: array<Sample<Float3>>, rotations: array<Sample<Quaternion>>, scales: array<Sample<Float3>>,
                 tweenPositionLifetimes: array<TweenLifetime>, tweenRotationLifetimes: array<TweenLifetime>,
                 tweenScaleLifetimes: array<TweenLifetime>, tweenStates: array<LegacyTransformState>,
                 deltaTime: real, curve: (EaseType, real, real) -> real,
                 rotate: (TweenRotation, real, bool, RotateMode) -> Quaternion)
      ensures this.tweenPositions == tweenPositions && this.tweenRotations == tweenRotations
      ensures this.tweenScales == tweenScales && this.positions == positions
      ensures this.rotations == rotations && this.scales == scales
      ensures this.tweenPositionLifetimes == tweenPositionLifetimes
      ensures this.tweenRotationLifetimes == tweenRotationLifetimes
      ensures this.tweenScaleLifetimes == tweenScaleLifetimes && this.tweenStates == tweenStates
      ensures this.deltaTime == deltaTime && this.curve == curve && this.rotate == rotate
    {
      this.tweenPositions := tweenPositions;
      this.tweenRotations := tweenRotations;
      this.tweenScales := tweenScales;
      this.positions := positions;
      this.rotations := rotations;
      this.scales := scales;
      this.tweenPositionLifetimes := tweenPositionLifetimes;
      this.tweenRotationLifetimes := tweenRotationLifetimes;
      this.tweenScaleLifetimes := tweenScaleLifetimes;
      this.tweenStates := tweenStates;
      this.deltaTime := deltaTime;
      this.curve := curve;
      this.rotate := rotate;
    }

    /** What the job may write at slot `i`. */
    function Slot(i: int): SlotView
      requires Valid() && 0 <= i < tweenStates.Length
      reads this, tweenStates, tweenPositionLifetimes, tweenRotationLifetimes, tweenScaleLifetimes
      reads positions, rotations, scales
    {
      SlotView(
        SlotClocks(tweenStates[i], tweenPositionLifetimes[i], tweenRotationLifetimes[i], tweenScaleLifetimes[i]),
        SlotOutputs(positions[i], rotations[i], scales[i]))
    }

    /** The read-only endpoints of slot `i`. */
    function Endpoints(i: int): SlotEndpoints
      requires Valid() && 0 <= i < tweenStates.Length
      reads this, tweenPositions, tweenRotations, tweenScales
    {
      SlotEndpoints(tweenPositions[i], tweenRotations[i], tweenScales[i])
    }

    /** Execute(i): slot `i` becomes ExecuteSlot of itself; every other slot is untouched. */
    method Execute(i: int)
      requires Valid() && 0 <= i < tweenStates.Length && Slot(i).clocks.Defined()
      modifies tweenStates, tweenPositionLifetimes, tweenRotationLifetimes, tweenScaleLifetimes
      modifies positions, rotations, scales
      ensures Slot(i) == old(ExecuteSlot(Slot(i), Endpoints(i), deltaTime, curve, rotate))
      ensures forall j | 0 <= j < tweenStates.Length && j != i :: Slot(j) == old(Slot(j))
    {
      var r := ExecuteSlot(Slot(i), Endpoints(i), deltaTime, curve, rotate);
      tweenStates[i] := r.clocks.state;
      tweenPositionLifetimes[i] := r.clocks.positionLifetime;
      tweenRotationLifetimes[i] := r.clocks.rotationLifetime;
      tweenScaleLifetimes[i] := r.clocks.scaleLifetime;
      positions[i] := r.outputs.position;
      rotations[i] := r.outputs.rotation;
      scales[i] := r.outputs.scale;
    }

    /**
     * The scheduled job: Execute once per index in the order `order`. Whatever
     * the order, every slot ends as ExecuteSlot of its value before the job.
     */
    method Run(order: seq<int>)
      requires Valid() && IsSchedule(order, tweenStates.Length)
      requires forall j | 0 <= j < tweenStates.Length :: Slot(j).clocks.Defined()
      modifies tweenStates, tweenPositionLifetimes, tweenRotationLifetimes, tweenScaleLifetimes
      modifies positions, rotations, scales
      ensures forall j | 0 <= j < tweenStates.Length ::
        Slot(j) == old(ExecuteSlot(Slot(j), Endpoints(j), deltaTime, curve, rotate))
    {
      var k := 0;
      while k < |order|
        invariant 0 <= k <= |order|
        invariant forall j | 0 <= j < tweenStates.Length ::
          Slot(j) == if j in order[..k] then old(ExecuteSlot(Slot(j), Endpoints(j), deltaTime, curve, rotate))
                     else old(Slot(j))
      {
        var i := order[k];
        assert i !in order[..k];
        Execute(i);
        assert order[..k + 1] == order[..k] + [i];
        k := k + 1;
      }
      assert order[..k] == order;
    }
  }

  // ----- ProcessBatchJob -----

  /** A batch together with its clock: what ProcessBatchJob.Execute reads and writes at one index. */
  datatype BatchClock = BatchClock(lifetime: TweenLifetime, batch: TweenBatch)

  /**
   * Execute(k) on one batch: the clock advances once, and the batch becomes
   * completed when the advanced clock reports progress 1. Completion is never
   * cleared and the batch's span is never touched.
   */
  function AdvanceBatch(c: BatchClock, deltaTime: real): (r: BatchClock)
    requires deltaTime >= 0.0 && c.lifetime.ProgressDefined()
    ensures r.lifetime == c.lifetime.Update(deltaTime) && r.lifetime.ProgressDefined()
    ensures r.batch.startIndex == c.batch.startIndex && r.batch.length == c.batch.length
    ensures r.batch.isCompleted <==> c.batch.isCompleted || r.lifetime.GetProgress() >= 1.0
  {
    UpdateKeepsProgressDefined(c.lifetime, deltaTime);
    var lt := c.lifetime.Update(deltaTime);
    if lt.GetProgress() >= 1.0 then BatchClock(lt, c.batch.(isCompleted := true))
    else BatchClock(lt, c.batch)
  }

  /**
   * A batch whose clock does not loop, starts within its duration and is
   * longer than the progress threshold, is marked completed on exactly the
   * frame its clock reaches the duration.
   */
  lemma BatchCompletesAtEnd(c: BatchClock, deltaTime: real)
    requires deltaTime >= 0.0 && !c.batch.isCompleted
    requires c.lifetime.loopType == NoLoop && c.lifetime.InRange() && c.lifetime.duration > Epsilon
    ensures AdvanceBatch(c, deltaTime).batch.isCompleted <==> c.lifetime.current + deltaTime >= c.lifetime.duration
  {
    var lt := c.lifetime;
    var a := lt.(current := Min(lt.current + deltaTime, lt.duration));
    assert lt.Update(deltaTime) == a;
    assert a.InRange();
  }

  /** The job over native arrays, one entry per batch. */
  class ProcessBatchJob {
    const batchLifetimes: array<TweenLifetime>
    const tweenBatches: array<TweenBatch>
    const deltaTime: real

    predicate Valid()
    {
      batchLifetimes.Length == tweenBatches.Length && deltaTime >= 0.0
    }

    constructor (batchLifetimes: array<TweenLifetime>, tweenBatches: array<TweenBatch>, deltaTime: real)
      ensures this.batchLifetimes == batchLifetimes && this.tweenBatches == tweenBatches
      ensures this.deltaTime == deltaTime
    {
      this.batchLifetimes := batchLifetimes;
      this.tweenBatches := tweenBatches;
      this.deltaTime := deltaTime;
    }

    function Entry(k: int): BatchClock
      requires Valid() && 0 <= k < tweenBatches.Length
      reads this, batchLifetimes, tweenBatches
    {
      BatchClock(batchLifetimes[k], tweenBatches[k])
    }

    /** Execute(k): entry `k` becomes AdvanceBatch of itself; every other entry is untouched. */
    method Execute(k: int)
      requires Valid() && 0 <= k < tweenBatches.Length && Entry(k).lifetime.ProgressDefined()
      modifies batchLifetimes, tweenBatches
      ensures Entry(k) == old(AdvanceBatch(Entry(k), deltaTime))
      ensures forall j | 0 <= j < tweenBatches.Length && j != k :: Entry(j) == old(Entry(j))
    {
      var lifetime := batchLifetimes[k];
      UpdateKeepsProgressDefined(lifetime, deltaTime);
      lifetime := lifetime.Update(deltaTime);
      batchLifetimes[k] := lifetime;
      if lifetime.GetProgress() >= 1.0 {
        var tweenBatch := tweenBatches[k];
        tweenBatch := tweenBatch.(isCompleted := true);
        tweenBatches[k] := tweenBatch;
      }
    }

    /** The scheduled job: Execute once per index in the order `order`, with the same result for every order. */
    method Run(order: seq<int>)
      requires Valid() && IsSchedule(order, tweenBatches.Length)
      requires forall j | 0 <= j < tweenBatches.Length :: Entry(j).lifetime.ProgressDefined()
      modifies batchLifetimes, tweenBatches
      ensures forall j | 0 <= j < tweenBatches.Length :: Entry(j) == old(AdvanceBatch(Entry(j), deltaTime))
    {
      var k := 0;
      while k < |order|
        invariant 0 <= k <= |order|
        invariant forall j | 0 <= j < tweenBatches.Length ::
          Entry(j) == if j in order[..k] then old(AdvanceBatch(Entry(j), deltaTime)) else old(Entry(j))
      {
        var i := order[k];
        assert i !in order[..k];
        Execute(i);
        assert order[..k + 1] == order[..k] + [i];
        k := k + 1;
      }
      assert order[..k] == order;
    }
  }
}
