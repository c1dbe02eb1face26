// Array helpers: filling an array with one value, and filling a position,
// rotation or scale array from the transforms with the same indices.

module ArrayExtensions {
  import opened TweenTypes
  import opened TweenValues

  /** What a transform reports: world and local position and rotation, and local scale. */
  datatype Pose = Pose(position: Float3, localPosition: Float3, rotation: Quaternion, localRotation: Quaternion,
                       localScale: Float3)

  /** The position a transform contributes in `spaceType`: the local one for Local, the world one otherwise. */
  function PositionIn(p: Pose, spaceType: SpaceType): (r: Float3)
    ensures spaceType == Local ==> r == p.localPosition
    ensures spaceType == World ==> r == p.position
  {
    if spaceType == Local then p.localPosition else p.position
  }

  /** The rotation a transform contributes in `spaceType`: the local one for Local, the world one otherwise. */
  function RotationIn(p: Pose, spaceType: SpaceType): (r: Quaternion)
    ensures spaceType == Local ==> r == p.localRotation
    ensures spaceType == World ==> r == p.rotation
  {
    if spaceType == Local then p.localRotation else p.rotation
  }

  /** Populate: every element becomes `value`; the length is unchanged, and an empty array is left as it was. */
  method Populate<T>(a: array<T>, value: T)
    modifies a
    ensures forall i | 0 <= i < a.Length :: a[i] == value
    ensures a.Length == 0 ==> a[..] == old(a[..])
  {
    var i := 0;
    while i < a.Length
      invariant 0 <= i <= a.Length
      invariant forall k | 0 <= k < i :: a[k] == value
    {
      a[i] := value;
      i := i + 1;
    }
  }

  /**
   * PopulatePositionArray (array and list overloads alike): element i becomes
   * transform i's position in `spaceType`.
   */
  method PopulatePositionArray(positionArray: array<Float3>, transforms: seq<Transform>, pose: Transform -> Pose,
                               spaceType: SpaceType)
    requires positionArray.Length == |transforms|
    modifies positionArray
    ensures forall i | 0 <= i < |transforms| :: positionArray[i] == PositionIn(pose(transforms[i]), spaceType)
  {
    if spaceType == Local {
      var i := 0;
      while i < positionArray.Length
        invariant 0 <= i <= positionArray.Length
        invariant forall k | 0 <= k < i :: positionArray[k] == pose(transforms[k]).localPosition
      {
        positionArray[i] := pose(transforms[i]).localPosition;
        i := i + 1;
      }
    } else {
      var i := 0;
      while i < positionArray.Length
        invariant 0 <= i <= positionArray.Length
        invariant forall k | 0 <= k < i :: positionArray[k] == pose(transforms[k]).position
      {
        positionArray[i] := pose(transforms[i]).position;
        i := i + 1;
      }
    }
  }

  /**
   * PopulateRotationArray (array and list overloads alike): element i becomes
   * transform i's rotation in `spaceType`.
   */
  method PopulateRotationArray(rotationArray: array<Quaternion>, transforms: seq<Transform>, pose: Transform -> Pose,
                               spaceType: SpaceType)
    requires rotationArray.Length == |transforms|
    modifies rotationArray
    ensures forall i | 0 <= i < |transforms| :: rotationArray[i] == RotationIn(pose(transforms[i]), spaceType)
  {
    if spaceType == Local {
      var i := 0;
      while i < rotationArray.Length
        invariant 0 <= i <= rotationArray.Length
        invariant forall k | 0 <= k < i :: rotationArray[k] == pose(transforms[k]).localRotation
      {
        rotationArray[i] := pose(transforms[i]).localRotation;
        i := i + 1;
      }
    } else {
      var i := 0;
      while i < rotationArray.Length
        invariant 0 <= i <= rotationArray.Length
        invariant forall k | 0 <= k < i :: rotationArray[k] == pose(transforms[k]).rotation
      {
        rotationArray[i] := pose(transforms[i]).rotation;
        i := i + 1;
      }
    }
  }

  /**
   * PopulateScaleArray (array and list overloads alike): element i becomes
   * transform i's local scale; there is no space choice.
   */
  method PopulateScaleArray(scaleArray: array<Float3>, transforms: seq<Transform>, pose: Transform -> Pose)
    requires scaleArray.Length == |transforms|
    modifies scaleArray
    ensures forall i | 0 <= i < |transforms| :: scaleArray[i] == pose(transforms[i]).localScale
  {
    var i := 0;
    while i < scaleArray.Length
      invariant 0 <= i <= scaleArray.Length
      invariant forall k | 0 <= k < i :: scaleArray[k] == pose(transforms[k]).localScale
    {
      scaleArray[i] := pose(transforms[i]).localScale;
      i := i + 1;
    }
  }
}
