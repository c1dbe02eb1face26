// TweenTransformState: the per-slot flag record of the single and (newer)
// batch tweeners, and JTweenTools' mapping from RotateMode to its space flag.
// LegacyTransformState is the older revision's per-slot record, which keeps a
// playing byte and one enable byte per channel instead of flag sets.

module TransformState {
  import opened TweenTypes

  datatype TweenTransformState = TweenTransformState(
    state: set<StateFlag>,
    transformType: set<TransformChannel>,
    spaceType: set<SpaceFlag>)
  {
    predicate IsPlaying() { StateFlag.IsPlaying in state }
    predicate IsPaused() { StateFlag.IsPaused in state }
    predicate IsCompleted() { StateFlag.IsCompleted in state }
    predicate HasHandle() { StateFlag.HasHandle in state }
    predicate JustStarted() { StateFlag.JustStarted in state }
    predicate JustEnded() { StateFlag.JustEnded in state }
    predicate RequiresRecycling() { StateFlag.RequiresRecycling in state }

    predicate IsMovementInWorldSpace() { WorldMovement in spaceType }
    predicate IsRotationInWorldSpace() { WorldRotation in spaceType }

    predicate IsMovementEnabled() { Movement in transformType }
    predicate IsRotationEnabled() { Rotation in transformType }
    predicate IsScalingEnabled() { Scaling in transformType }

    predicate IsRotationXYZ() { RotateModeXYZ in spaceType }
    predicate IsRotationX() { RotateX in spaceType }
    predicate IsRotationY() { RotateY in spaceType }
    predicate IsRotationZ() { RotateZ in spaceType }

    /** The single-axis flags decide the mode, X before Y before Z; none of them means XYZ. */
    function GetRotateMode(): (m: RotateMode)
      ensures m == X <==> IsRotationX()
      ensures m == Y <==> !IsRotationX() && IsRotationY()
      ensures m == Z <==> !IsRotationX() && !IsRotationY() && IsRotationZ()
      ensures m == XYZ <==> !IsRotationX() && !IsRotationY() && !IsRotationZ()
    {
      if IsRotationX() then X
      else if IsRotationY() then Y
      else if IsRotationZ() then Z
      else XYZ
    }
  }

  /** JTweenTools.GetTweenSpaceTypeFromRotateMode. */
  function GetTweenSpaceTypeFromRotateMode(rotateMode: RotateMode): (f: SpaceFlag)
    ensures f in {RotateModeXYZ, RotateX, RotateY, RotateZ}
  {
    match rotateMode
    case XYZ => RotateModeXYZ
    case X => RotateX
    case Y => RotateY
    case Z => RotateZ
  }

  /** Distinct modes map to distinct flags. */
  lemma RotateFlagMappingInjective(a: RotateMode, b: RotateMode)
    ensures GetTweenSpaceTypeFromRotateMode(a) == GetTweenSpaceTypeFromRotateMode(b) ==> a == b
  {
  }

  /**
   * Reading the mode back from a slot created with the mapped flag gives the
   * original mode, whatever state, channels and movement/rotation space flags
   * the slot also carries.
   */
  lemma RotateModeRoundTrip(m: RotateMode, state: set<StateFlag>, channels: set<TransformChannel>,
                            spaces: set<SpaceFlag>)
    requires spaces <= {LocalMovement, WorldMovement, LocalRotation, WorldRotation}
    ensures TweenTransformState(state, channels, spaces + {GetTweenSpaceTypeFromRotateMode(m)}).GetRotateMode() == m
  {
  }

  /** The older revision's per-slot record. */
  datatype LegacyTransformState = LegacyTransformState(
    isPlaying: bool,
    isMovementEnabled: bool,
    isRotationEnabled: bool,
    isScalingEnabled: bool,
    moveSpaceType: SpaceType,
    rotateMode: RotateMode)
  {
    predicate IsMovementEnabled() { isMovementEnabled }
    predicate IsRotationEnabled() { isRotationEnabled }
    predicate IsScalingEnabled() { isScalingEnabled }
    function GetRotateMode(): RotateMode { rotateMode }
  }
}
