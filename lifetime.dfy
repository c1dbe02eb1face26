// TweenLifetime: the per-channel clock of a tween (elapsed time, loop counter,
// ping-pong direction) and the ease curves evaluated on it.
// TweenLifetime is a C# struct: every caller copies it out, calls Update or
// Restart on the copy and writes the copy back, so the model gives those two
// operations as functions from the old value to the new one.

module Lifetime {
  import opened TweenTypes

  /** Threshold of the `FastApproximately(current, 0, 0.00001f)` test in GetProgress. */
  const Epsilon: real := 0.00001
  const InfiniteLoop: int := -1

  function Min(a: real, b: real): real { if a <= b then a else b }
  function Max(a: real, b: real): real { if a >= b then a else b }

  /** Absolute difference at most `threshold`, written as the source writes it. */
  predicate FastApproximately(a: real, b: real, threshold: real)
  {
    (if a - b < 0.0 then (a - b) * -1.0 else a - b) <= threshold
  }

  datatype TweenLifetime = TweenLifetime(
    duration: real,
    current: real,
    loopCount: int,
    originalLoopCount: int,
    easeType: EaseType,
    loopType: LoopType,
    isReversed: bool)
  {
    /** `current` lies between 0 and `duration` (in whichever order they come). */
    predicate InRange()
    {
      if duration >= 0.0 then 0.0 <= current <= duration else duration <= current <= 0.0
    }

    /** GetProgress divides by `duration` only when `current` is not near 0. */
    predicate ProgressDefined()
    {
      FastApproximately(current, 0.0, Epsilon) || duration != 0.0
    }

    function GetProgress(): (p: real)
      requires ProgressDefined()
      ensures p <= 1.0
      ensures InRange() ==> 0.0 <= p
      ensures InRange() ==> (p == 1.0 <==> current == duration && !FastApproximately(current, 0.0, Epsilon))
    {
      if FastApproximately(current, 0.0, Epsilon) then 0.0
      else
        ProgressQuotient(current, duration);
        Min(current / duration, 1.0)
    }

    /** The clock with `current` clamped to the duration after `deltaTime`. */
    function Advanced(deltaTime: real): TweenLifetime
    {
      this.(current := Min(current + deltaTime, duration))
    }

    /** Advances the clock by `deltaTime` and, at the end of a pass, runs the loop logic. */
    function Update(deltaTime: real): (r: TweenLifetime)
      requires deltaTime >= 0.0 && ProgressDefined()
    {
      AdvancedKeepsProgressDefined(this, deltaTime);
      var advanced := Advanced(deltaTime);
      if loopType == NoLoop || advanced.GetProgress() < 1.0 then advanced
      else if loopCount == InfiniteLoop || loopCount > 0 then
        match loopType
        case RestartLoop =>
          advanced.(current := 0.0, loopCount := if loopCount > 0 then loopCount - 1 else loopCount)
        case PingPongLoop =>
          var flipped := !isReversed;
          advanced.(current := 0.0, isReversed := flipped,
                    loopCount := if flipped && loopCount > 0 then loopCount - 1 else loopCount)
      else advanced
    }

    /** Rewinds the clock to the start of its first pass. */
    function Restart(): (r: TweenLifetime)
      ensures r.current == 0.0 && r.GetProgress() == 0.0
      ensures r.loopCount == originalLoopCount && !r.isReversed
      ensures r.duration == duration && r.easeType == easeType && r.loopType == loopType
      ensures r.originalLoopCount == originalLoopCount
    {
      this.(current := 0.0, loopCount := originalLoopCount, isReversed := false)
    }

    /** The eased progress; the transcendental curves come from `curve(easeType, t, d)`. */
    function GetEase(curve: (EaseType, real, real) -> real): real
      requires duration != 0.0
    {
      var t, d := current, duration;
      match easeType
      case Linear => EaseNone(t, d)
      case BackIn => EaseInBack(t, d)
      case BackOut => EaseOutBack(t, d)
      case BackInOut => EaseInOutBack(t, d)
      case BounceIn => EaseInBounce(t, d)
      case BounceOut => EaseOutBounce(t, d)
      case BounceInOut => EaseInOutBounce(t, d)
      case CubicIn => EaseInCubic(t, d)
      case CubicOut => EaseOutCubic(t, d)
      case CubicInOut => EaseInOutCubic(t, d)
      case QuadIn => EaseInQuadratic(t, d)
      case QuadOut => EaseOutQuadratic(t, d)
      case QuadInOut => EaseInOutQuadratic(t, d)
      case QuartIn => EaseInQuart(t, d)
      case QuartOut => EaseOutQuart(t, d)
      case QuartInOut => EaseInOutQuart(t, d)
      case QuintIn => EaseInQuint(t, d)
      case QuintOut => EaseOutQuint(t, d)
      case QuintInOut => EaseInOutQuint(t, d)
      case _ => curve(easeType, t, d)
    }
  }

  /** `new TweenLifetime()`: every field zero. */
  const DefaultLifetime: TweenLifetime := TweenLifetime(0.0, 0.0, 0, 0, Linear, NoLoop, false)

  /** `Mathf.Clamp(loopCount, -1, short.MaxValue)`. */
  function ClampLoopCount(loopCount: int): (r: int)
    ensures -1 <= r <= ShortMax && IsShort(r)
    ensures -1 <= loopCount <= ShortMax ==> r == loopCount
  {
    if loopCount < -1 then -1 else if loopCount > ShortMax then ShortMax else loopCount
  }

  /** An unchecked C# `(short)` cast: the value modulo 2^16, read as signed. */
  function ShortCast(n: int): (r: int)
    ensures IsShort(r)
    ensures (r - n) % 65536 == 0
    ensures IsShort(n) ==> r == n
  {
    (n - ShortMin) % 65536 + ShortMin
  }

  /** The lifetime the single and (newer) batch tweeners create for the animated channel. */
  function NewLifetime(duration: real, easeType: EaseType, loopType: LoopType, loopCount: int): (r: TweenLifetime)
    ensures r.duration >= 0.0 && r.InRange() && r.GetProgress() == 0.0
    ensures r.loopCount == r.originalLoopCount && -1 <= r.loopCount <= ShortMax
    ensures !r.isReversed && r.easeType == easeType && r.loopType == loopType
  {
    TweenLifetime(Max(0.0, duration), 0.0, ClampLoopCount(loopCount), ClampLoopCount(loopCount),
                  easeType, loopType, false)
  }

  // ----- helper facts used by the functions above -----

  lemma ProgressQuotient(c: real, d: real)
    requires d != 0.0
    ensures (d > 0.0 && 0.0 <= c <= d) ==> 0.0 <= c / d <= 1.0
    ensures (d < 0.0 && d <= c <= 0.0) ==> 0.0 <= c / d <= 1.0
    ensures (d > 0.0 && 0.0 <= c <= d) ==> (c / d >= 1.0 <==> c == d)
    ensures (d < 0.0 && d <= c <= 0.0) ==> (c / d >= 1.0 <==> c == d)
  {
  }

  lemma AdvancedKeepsProgressDefined(lt: TweenLifetime, deltaTime: real)
    requires deltaTime >= 0.0 && lt.ProgressDefined()
    ensures lt.Advanced(deltaTime).ProgressDefined()
  {
  }

  // ----- ease curves -----

  function EaseNone(t: real, d: real): real requires d != 0.0 { t / d }

  function EaseInQuadratic(t: real, d: real): real requires d != 0.0
  { var x := t / d; x * x }

  function EaseOutQuadratic(t: real, d: real): real requires d != 0.0
  { var x := t / d; -1.0 * x * (x - 2.0) }

  function EaseInOutQuadratic(t: real, d: real): real requires d != 0.0
  {
    var x := t / (d / 2.0);
    if x < 1.0 then 0.5 * x * x
    else var y := x - 1.0; -0.5 * (y * (y - 2.0) - 1.0)
  }

  const BackOvershoot: real := 1.70158

  function EaseInBack(t: real, d: real): real requires d != 0.0
  { var x := t / d; x * x * ((BackOvershoot + 1.0) * x - BackOvershoot) }

  function EaseOutBack(t: real, d: real): real requires d != 0.0
  { var x := t / d - 1.0; x * x * ((BackOvershoot + 1.0) * x + BackOvershoot) + 1.0 }

  function EaseInOutBack(t: real, d: real): real requires d != 0.0
  {
    var s := BackOvershoot * 1.525;
    var x := t / (d / 2.0);
    if x < 1.0 then 0.5 * (x * x * ((s + 1.0) * x - s))
    else var y := x - 2.0; 0.5 * (y * y * ((s + 1.0) * y + s) + 2.0)
  }

  function EaseOutBounce(t: real, d: real): real requires d != 0.0
  {
    var x := t / d;
    if x < 1.0 / 2.75 then 7.5625 * x * x
    else if x < 2.0 / 2.75 then var y := x - 1.5 / 2.75; 7.5625 * y * y + 0.75
    else if x < 2.5 / 2.75 then var y := x - 2.25 / 2.75; 7.5625 * y * y + 0.9375
    else var y := x - 2.625 / 2.75; 7.5625 * y * y + 0.984375
  }

  function EaseInBounce(t: real, d: real): real requires d != 0.0
  { 1.0 - EaseOutBounce(d - t, d) }

  function EaseInOutBounce(t: real, d: real): real requires d != 0.0
  {
    if t < d / 2.0 then EaseInBounce(t * 2.0, d) * 0.5
    else EaseOutBounce(t * 2.0 - d, d) * 0.5 + 1.0 * 0.5
  }

  function EaseInCubic(t: real, d: real): real requires d != 0.0
  { var x := t / d; x * x * x }

  function EaseOutCubic(t: real, d: real): real requires d != 0.0
  { var x := t / d - 1.0; x * x * x + 1.0 }

  function EaseInOutCubic(t: real, d: real): real requires d != 0.0
  {
    var x := t / (d / 2.0);
    if x < 1.0 then 0.5 * x * x * x
    else var y := x - 2.0; 0.5 * (y * y * y + 2.0)
  }

  function EaseInQuart(t: real, d: real): real requires d != 0.0
  { var x := t / d; x * x * x * x }

  function EaseOutQuart(t: real, d: real): real requires d != 0.0
  { var x := t / d - 1.0; -1.0 * (x * x * x * x - 1.0) }

  function EaseInOutQuart(t: real, d: real): real requires d != 0.0
  {
    var x := t / (d / 2.0);
    if x < 1.0 then 0.5 * x * x * x * x
    else var y := x - 2.0; -0.5 * (y * y * y * y - 2.0)
  }

  function EaseInQuint(t: real, d: real): real requires d != 0.0
  { var x := t / d; x * x * x * x * x }

  function EaseOutQuint(t: real, d: real): real requires d != 0.0
  { var x := t / d - 1.0; x * x * x * x * x + 1.0 }

  function EaseInOutQuint(t: real, d: real): real requires d != 0.0
  {
    var x := t / (d / 2.0);
    if x < 1.0 then 0.5 * x * x * x * x * x
    else var y := x - 2.0; 0.5 * (y * y * y * y * y + 2.0)
  }
}
