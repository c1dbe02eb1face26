// Value types carried by the tween slots: float vectors, quaternions, the
// opaque Transform identity, and the from/to structs that interpolate between
// two endpoints with optional reversal (TweenFloat1..4, TweenPosition,
// TweenScale, TweenRotation). Floats are modelled as reals.

module TweenValues {

  /** Unity.Mathematics `math.lerp(x, y, s)`: `x + s * (y - x)`, not clamped. */
  function MathLerp(x: real, y: real, s: real): real
  {
    x + s * (y - x)
  }

  datatype Float2 = Float2(x: real, y: real)
  datatype Float3 = Float3(x: real, y: real, z: real)
  datatype Float4 = Float4(x: real, y: real, z: real, w: real)
  datatype Quaternion = Quaternion(x: real, y: real, z: real, w: real)

  /** A Unity Transform, known only by its identity; its coordinates are read through functions passed in. */
  datatype Transform = Transform(id: nat)

  const ZeroFloat3: Float3 := Float3(0.0, 0.0, 0.0)
  const ZeroQuaternion: Quaternion := Quaternion(0.0, 0.0, 0.0, 0.0)

  datatype TweenFloat1 = TweenFloat1(from: real, to: real)
  {
    /** Interpolates from `from` to `to`, or from `to` to `from` when reversed. */
    function Lerp(ease: real, isReversed: bool): (r: real)
      ensures ease == 0.0 ==> r == (if isReversed then to else from)
      ensures ease == 1.0 ==> r == (if isReversed then from else to)
      ensures from == to ==> r == from
    {
      var currentTo := if isReversed then from else to;
      var currentFrom := if isReversed then to else from;
      MathLerp(currentFrom, currentTo, ease)
    }
  }

  /** Reversal mirrors the ease: playing backwards at `e` is playing forwards at `1 - e`. */
  lemma ReversedLerpMirrors(t: TweenFloat1, ease: real)
    ensures t.Lerp(ease, true) == t.Lerp(1.0 - ease, false)
  {
  }

  datatype TweenFloat2 = TweenFloat2(from: Float2, to: Float2)
  {
    function Lerp(ease: real, isReversed: bool): (r: Float2)
      ensures r.x == TweenFloat1(from.x, to.x).Lerp(ease, isReversed)
      ensures r.y == TweenFloat1(from.y, to.y).Lerp(ease, isReversed)
      ensures ease == 0.0 ==> r == (if isReversed then to else from)
      ensures ease == 1.0 ==> r == (if isReversed then from else to)
    {
      var currentTo := if isReversed then from else to;
      var currentFrom := if isReversed then to else from;
      Float2(MathLerp(currentFrom.x, currentTo.x, ease), MathLerp(currentFrom.y, currentTo.y, ease))
    }
  }

  lemma ReversedLerp2Mirrors(t: TweenFloat2, ease: real)
    ensures t.Lerp(ease, true) == t.Lerp(1.0 - ease, false)
  {
  }

  datatype TweenFloat3 = TweenFloat3(from: Float3, to: Float3)
  {
    function Lerp(ease: real, isReversed: bool): (r: Float3)
      ensures r.x == TweenFloat1(from.x, to.x).Lerp(ease, isReversed)
      ensures r.y == TweenFloat1(from.y, to.y).Lerp(ease, isReversed)
      ensures r.z == TweenFloat1(from.z, to.z).Lerp(ease, isReversed)
      ensures ease == 0.0 ==> r == (if isReversed then to else from)
      ensures ease == 1.0 ==> r == (if isReversed then from else to)
    {
      var currentTo := if isReversed then from else to;
      var currentFrom := if isReversed then to else from;
      Float3(MathLerp(currentFrom.x, currentTo.x, ease),
             MathLerp(currentFrom.y, currentTo.y, ease),
             MathLerp(currentFrom.z, currentTo.z, ease))
    }
  }

  lemma ReversedLerp3Mirrors(t: TweenFloat3, ease: real)
    ensures t.Lerp(ease, true) == t.Lerp(1.0 - ease, false)
  {
  }

  const DefaultTweenFloat3: TweenFloat3 := TweenFloat3(ZeroFloat3, ZeroFloat3)

  datatype TweenFloat4 = TweenFloat4(from: Float4, to: Float4)
  {
    function Lerp(ease: real, isReversed: bool): (r: Float4)
      ensures r.x == TweenFloat1(from.x, to.x).Lerp(ease, isReversed)
      ensures r.y == TweenFloat1(from.y, to.y).Lerp(ease, isReversed)
      ensures r.z == TweenFloat1(from.z, to.z).Lerp(ease, isReversed)
      ensures r.w == TweenFloat1(from.w, to.w).Lerp(ease, isReversed)
      ensures ease == 0.0 ==> r == (if isReversed then to else from)
      ensures ease == 1.0 ==> r == (if isReversed then from else to)
    {
      var currentTo := if isReversed then from else to;
      var currentFrom := if isReversed then to else from;
      Float4(MathLerp(currentFrom.x, currentTo.x, ease),
             MathLerp(currentFrom.y, currentTo.y, ease),
             MathLerp(currentFrom.z, currentTo.z, ease),
             MathLerp(currentFrom.w, currentTo.w, ease))
    }
  }

  lemma ReversedLerp4Mirrors(t: TweenFloat4, ease: real)
    ensures t.Lerp(ease, true) == t.Lerp(1.0 - ease, false)
  {
  }

  datatype TweenPosition = TweenPosition(from: Float3, to: Float3)
  {
    /** The same interpolation as TweenFloat3.Lerp over the same endpoints. */
    function GetPosition(ease: real, isReversed: bool): (r: Float3)
      ensures r == TweenFloat3(from, to).Lerp(ease, isReversed)
      ensures ease == 0.0 ==> r == (if isReversed then to else from)
      ensures ease == 1.0 ==> r == (if isReversed then from else to)
    {
      var currentTo := if isReversed then from else to;
      var currentFrom := if isReversed then to else from;
      Float3(MathLerp(currentFrom.x, currentTo.x, ease),
             MathLerp(currentFrom.y, currentTo.y, ease),
             MathLerp(currentFrom.z, currentTo.z, ease))
    }
  }

  lemma ReversedPositionMirrors(t: TweenPosition, ease: real)
    ensures t.GetPosition(ease, true) == t.GetPosition(1.0 - ease, false)
  {
  }

  datatype TweenScale = TweenScale(from: Float3, to: Float3)
  {
    /** The same interpolation as TweenFloat3.Lerp over the same endpoints. */
    function GetScale(ease: real, isReversed: bool): (r: Float3)
      ensures r == TweenFloat3(from, to).Lerp(ease, isReversed)
      ensures ease == 0.0 ==> r == (if isReversed then to else from)
      ensures ease == 1.0 ==> r == (if isReversed then from else to)
    {
      var currentTo := if isReversed then from else to;
      var currentFrom := if isReversed then to else from;
      Float3(MathLerp(currentFrom.x, currentTo.x, ease),
             MathLerp(currentFrom.y, currentTo.y, ease),
             MathLerp(currentFrom.z, currentTo.z, ease))
    }
  }

  lemma ReversedScaleMirrors(t: TweenScale, ease: real)
    ensures t.GetScale(ease, true) == t.GetScale(1.0 - ease, false)
  {
  }

  /**
   * TweenRotation's endpoints. Its GetRotation goes through Quaternion.Lerp and
   * Quaternion.Euler, which are not modelled: callers receive it as a function.
   */
  datatype TweenRotation = TweenRotation(from: Quaternion, to: Quaternion, angle: real)

  const DefaultTweenRotation: TweenRotation := TweenRotation(ZeroQuaternion, ZeroQuaternion, 0.0)
}
