// Properties of the TweenLifetime clock and of the polynomial ease curves.

module LifetimeProperties {
  import opened TweenTypes
  import opened Lifetime

  lemma InRangeHasProgress(lt: TweenLifetime)
    requires lt.InRange()
    ensures lt.ProgressDefined()
  {
  }

  /** Update with a non-negative step keeps `current` between 0 and `duration` and keeps the configuration. */
  lemma UpdatePreservesInRange(lt: TweenLifetime, deltaTime: real)
    requires deltaTime >= 0.0 && lt.InRange()
    ensures lt.ProgressDefined()
    ensures lt.Update(deltaTime).InRange()
    ensures lt.Update(deltaTime).duration == lt.duration
    ensures lt.Update(deltaTime).easeType == lt.easeType
    ensures lt.Update(deltaTime).loopType == lt.loopType
    ensures lt.Update(deltaTime).originalLoopCount == lt.originalLoopCount
  {
  }

  /** Without looping, Update only moves `current` to `min(current + dt, duration)`. */
  lemma NoLoopOnlyAdvances(lt: TweenLifetime, deltaTime: real)
    requires deltaTime >= 0.0 && lt.ProgressDefined() && lt.loopType == NoLoop
    ensures lt.Update(deltaTime) == lt.(current := Min(lt.current + deltaTime, lt.duration))
  {
  }

  /** Without looping, a non-negative step never lowers the progress. */
  lemma NoLoopProgressNeverDecreases(lt: TweenLifetime, deltaTime: real)
    requires deltaTime >= 0.0 && lt.InRange() && lt.loopType == NoLoop && lt.duration >= 0.0
    ensures lt.ProgressDefined() && lt.Update(deltaTime).ProgressDefined()
    ensures lt.Update(deltaTime).GetProgress() >= lt.GetProgress()
  {
  }

  /** The clock after one frame per step of `deltaTimes`, the last step last. */
  function Frames(lt: TweenLifetime, deltaTimes: seq<real>): (r: TweenLifetime)
    requires lt.InRange() && forall k | 0 <= k < |deltaTimes| :: deltaTimes[k] >= 0.0
    ensures r.InRange()
    ensures r.duration == lt.duration && r.loopType == lt.loopType && r.easeType == lt.easeType
    ensures r.originalLoopCount == lt.originalLoopCount
    decreases |deltaTimes|
  {
    if |deltaTimes| == 0 then lt
    else
      var prev := Frames(lt, deltaTimes[..|deltaTimes| - 1]);
      UpdatePreservesInRange(prev, deltaTimes[|deltaTimes| - 1]);
      prev.Update(deltaTimes[|deltaTimes| - 1])
  }

  /**
   * Without looping, progress never decreases over any run of frames with
   * non-negative steps: the clock after a prefix of the steps is never ahead
   * of the clock after all of them.
   */
  lemma {:induction false} NoLoopProgressNeverDecreasesOverFrames(lt: TweenLifetime, deltaTimes: seq<real>)
    requires lt.InRange() && lt.loopType == NoLoop && lt.duration >= 0.0
    requires forall k | 0 <= k < |deltaTimes| :: deltaTimes[k] >= 0.0
    ensures forall i | 0 <= i <= |deltaTimes| ::
      Frames(lt, deltaTimes[..i]).GetProgress() <= Frames(lt, deltaTimes).GetProgress()
    decreases |deltaTimes|
  {
    if |deltaTimes| > 0 {
      var n := |deltaTimes| - 1;
      var prefix := deltaTimes[..n];
      NoLoopProgressNeverDecreasesOverFrames(lt, prefix);
      NoLoopProgressNeverDecreases(Frames(lt, prefix), deltaTimes[n]);
      forall i | 0 <= i <= |deltaTimes|
        ensures Frames(lt, deltaTimes[..i]).GetProgress() <= Frames(lt, deltaTimes).GetProgress()
      {
        if i <= n {
          assert deltaTimes[..i] == prefix[..i];
        } else {
          assert deltaTimes[..i] == deltaTimes;
        }
      }
    } else {
      assert deltaTimes[..0] == deltaTimes;
    }
  }

  /** A pass that has not reached progress 1 is only advanced, whatever the loop type. */
  lemma UnfinishedPassOnlyAdvances(lt: TweenLifetime, deltaTime: real)
    requires deltaTime >= 0.0 && lt.InRange() && lt.duration > 0.0
    requires lt.current + deltaTime < lt.duration
    ensures lt.Update(deltaTime) == lt.(current := lt.current + deltaTime)
  {
    var a := lt.Advanced(deltaTime);
    assert a.current == lt.current + deltaTime;
    assert a.current != a.duration;
    assert a.InRange();
  }

  /** `n` clock steps of `deltaTime` each. */
  function Steps(lt: TweenLifetime, deltaTime: real, n: nat): (r: TweenLifetime)
    requires deltaTime >= 0.0 && lt.InRange()
    ensures r.InRange()
    ensures r.duration == lt.duration && r.loopType == lt.loopType && r.easeType == lt.easeType
    ensures r.originalLoopCount == lt.originalLoopCount
    decreases n
  {
    if n == 0 then lt
    else
      var prev := Steps(lt, deltaTime, n - 1);
      UpdatePreservesInRange(prev, deltaTime);
      prev.Update(deltaTime)
  }

  /** A zero-length tween never makes progress, whatever time passes. */
  lemma {:induction false} ZeroDurationNeverProgresses(lt: TweenLifetime, deltaTime: real, n: nat)
    requires deltaTime >= 0.0 && lt.duration == 0.0 && lt.current == 0.0
    ensures Steps(lt, deltaTime, n).current == 0.0
    ensures Steps(lt, deltaTime, n).GetProgress() == 0.0
  {
    if n > 0 {
      ZeroDurationNeverProgresses(lt, deltaTime, n - 1);
    }
  }

  /** One full-duration step at the start of a Restart pass. */
  lemma RestartStep(lt: TweenLifetime)
    requires lt.loopType == RestartLoop && lt.duration > Epsilon && lt.current == 0.0
    ensures lt.loopCount > 0 ==> lt.Update(lt.duration) == lt.(loopCount := lt.loopCount - 1)
    ensures lt.loopCount == InfiniteLoop ==> lt.Update(lt.duration) == lt
    ensures lt.loopCount == 0 ==> lt.Update(lt.duration) == lt.(current := lt.duration)
  {
    var a := lt.Advanced(lt.duration);
    assert a.current == lt.duration;
    assert !FastApproximately(a.current, 0.0, Epsilon);
    assert a.InRange();
    assert a.GetProgress() == 1.0;
  }

  /**
   * With LoopType.Restart and `loopCount = n`, a tween stepped by whole durations
   * restarts n times and finishes on the (n+1)-th pass: N loops give N+1 passes.
   */
  lemma {:induction false} RestartLoopRunsCountPlusOnePasses(lt: TweenLifetime, k: nat)
    requires lt.loopType == RestartLoop && lt.duration > Epsilon && lt.current == 0.0 && lt.loopCount >= 0
    requires k <= lt.loopCount + 1
    ensures k <= lt.loopCount ==> Steps(lt, lt.duration, k) == lt.(loopCount := lt.loopCount - k)
    ensures k == lt.loopCount + 1 ==> Steps(lt, lt.duration, k) == lt.(current := lt.duration, loopCount := 0)
  {
    if k > 0 {
      RestartLoopRunsCountPlusOnePasses(lt, k - 1);
      var prev := lt.(loopCount := lt.loopCount - (k - 1));
      assert Steps(lt, lt.duration, k - 1) == prev;
      RestartStep(prev);
    }
  }

  /** A clock no longer than the epsilon never reports any progress: such a tween never ends. */
  lemma ShorterThanEpsilonNeverProgresses(lt: TweenLifetime)
    requires lt.InRange() && -Epsilon <= lt.duration <= Epsilon
    ensures lt.GetProgress() == 0.0
  {
  }

  /** A finished pass with no loops left stays finished. */
  lemma FinishedStaysFinished(lt: TweenLifetime, deltaTime: real)
    requires lt.duration > Epsilon && lt.current == lt.duration && lt.loopCount == 0 && deltaTime >= 0.0
    ensures lt.GetProgress() == 1.0
    ensures lt.Update(deltaTime) == lt
  {
  }

  /** With `loopCount = -1` the clock is back at 0 after every whole-duration step: it never finishes. */
  lemma {:induction false} InfiniteRestartNeverFinishes(lt: TweenLifetime, k: nat)
    requires lt.loopType == RestartLoop && lt.duration > Epsilon && lt.current == 0.0 && lt.loopCount == InfiniteLoop
    ensures Steps(lt, lt.duration, k) == lt
    ensures Steps(lt, lt.duration, k).GetProgress() == 0.0
  {
    if k > 0 {
      InfiniteRestartNeverFinishes(lt, k - 1);
      assert Steps(lt, lt.duration, k - 1) == lt;
      RestartStep(lt);
    }
  }

  /** One full-duration step at the start of a PingPong pass. */
  lemma PingPongStep(lt: TweenLifetime)
    requires lt.loopType == PingPongLoop && lt.duration > Epsilon && lt.current == 0.0
    ensures lt.loopCount == 0 ==> lt.Update(lt.duration) == lt.(current := lt.duration)
    ensures lt.loopCount > 0 ==>
      lt.Update(lt.duration) == lt.(isReversed := !lt.isReversed,
                                    loopCount := if !lt.isReversed then lt.loopCount - 1 else lt.loopCount)
  {
    var a := lt.Advanced(lt.duration);
    assert a.current == lt.duration;
    assert !FastApproximately(a.current, 0.0, Epsilon);
    assert a.InRange();
    assert a.GetProgress() == 1.0;
  }

  /**
   * PingPong spends one unit of `loopCount` per forward-and-back round: from a
   * forward start with `loopCount = n > 0`, after 2n - 1 whole-duration steps the
   * clock is at the start of the last (reverse) pass, and after 2n it is finished.
   */
  lemma {:induction false} PingPongRoundTrips(lt: TweenLifetime, j: nat)
    requires lt.loopType == PingPongLoop && lt.duration > Epsilon && lt.current == 0.0
    requires !lt.isReversed && lt.loopCount > 0 && j < lt.loopCount
    ensures Steps(lt, lt.duration, 2 * j) == lt.(loopCount := lt.loopCount - j)
  {
    if j > 0 {
      PingPongRoundTrips(lt, j - 1);
      var prev := lt.(loopCount := lt.loopCount - (j - 1));
      assert Steps(lt, lt.duration, 2 * (j - 1)) == prev;
      PingPongStep(prev);
      var mid := prev.(isReversed := true, loopCount := prev.loopCount - 1);
      assert Steps(lt, lt.duration, 2 * j - 1) == mid;
      PingPongStep(mid);
    }
  }

  lemma PingPongFinishesReversed(lt: TweenLifetime)
    requires lt.loopType == PingPongLoop && lt.duration > Epsilon && lt.current == 0.0
    requires !lt.isReversed && lt.loopCount > 0
    ensures Steps(lt, lt.duration, 2 * lt.loopCount - 1) == lt.(isReversed := true, loopCount := 0)
    ensures Steps(lt, lt.duration, 2 * lt.loopCount) == lt.(isReversed := true, loopCount := 0, current := lt.duration)
  {
    var n := lt.loopCount;
    PingPongRoundTrips(lt, n - 1);
    var last := lt.(loopCount := 1);
    assert Steps(lt, lt.duration, 2 * (n - 1)) == last;
    PingPongStep(last);
    var rev := lt.(isReversed := true, loopCount := 0);
    assert Steps(lt, lt.duration, 2 * n - 1) == rev;
    PingPongStep(rev);
  }

  /** Restart forgets everything Update did: elapsed time, loops spent and direction. */
  lemma RestartAbsorbsUpdate(lt: TweenLifetime, deltaTime: real)
    requires deltaTime >= 0.0 && lt.ProgressDefined()
    ensures lt.Update(deltaTime).Restart() == lt.Restart()
    ensures lt.Restart().Restart() == lt.Restart()
  {
  }

  predicate IsPolynomial(e: EaseType)
  {
    e in {Linear, QuadIn, QuadOut, QuadInOut, CubicIn, CubicOut, CubicInOut,
          QuartIn, QuartOut, QuartInOut, QuintIn, QuintOut, QuintInOut,
          BackIn, BackOut, BackInOut, BounceIn, BounceOut, BounceInOut}
  }

  lemma OutBounceEndpoints(d: real)
    requires d != 0.0
    ensures EaseOutBounce(0.0, d) == 0.0
    ensures EaseOutBounce(d, d) == 1.0
  {
    assert 0.0 / d == 0.0;
    assert d / d == 1.0;
  }

  /** Every modelled ease starts at 0 when `current = 0` and ends at 1 when `current = duration`. */
  lemma EaseEndpoints(lt: TweenLifetime, curve: (EaseType, real, real) -> real)
    requires lt.duration > 0.0 && IsPolynomial(lt.easeType)
    ensures lt.current == 0.0 ==> lt.GetEase(curve) == 0.0
    ensures lt.current == lt.duration ==> lt.GetEase(curve) == 1.0
  {
    var d := lt.duration;
    OutBounceEndpoints(d);
    assert 0.0 / d == 0.0 && d / d == 1.0;
    assert 0.0 / (d / 2.0) == 0.0 && d / (d / 2.0) == 2.0;
    assert (2.0 * d - d) == d;
  }

  lemma DivideProduct(a: real, d: real)
    requires d != 0.0
    ensures (a * d) / d == a
  {
  }

  /** Each polynomial out-ease is the in-ease played backwards: `Out(t) = 1 - In(d - t)`. */
  lemma OutEaseReflectsInEase(t: real, d: real)
    requires d != 0.0
    ensures EaseOutQuadratic(t, d) == 1.0 - EaseInQuadratic(d - t, d)
    ensures EaseOutCubic(t, d) == 1.0 - EaseInCubic(d - t, d)
    ensures EaseOutQuart(t, d) == 1.0 - EaseInQuart(d - t, d)
    ensures EaseOutQuint(t, d) == 1.0 - EaseInQuint(d - t, d)
  {
    var x := t / d;
    var y := 1.0 - x;
    assert t == x * d;
    var u := d - t;
    assert u == y * d;
    DivideProduct(y, d);
    assert u / d == y;
  }
}
