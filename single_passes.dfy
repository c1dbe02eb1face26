// The single-transform tweener's per-frame passes over its slot data, stated
// on values: the command drain, the start capture and the late (completion)
// pass. The tweener's methods are proved to compute exactly these.

module SinglePasses {
  import opened TweenTypes
  import opened Lifetime
  import opened TransformState
  import opened Commands
  import opened Handles
  import opened RecyclePlans

  /** The slot data the passes read and write, with the state of every listed handle. */
  datatype Slots = Slots(
    states: seq<TweenTransformState>,
    positionLifetimes: seq<TweenLifetime>,
    rotationLifetimes: seq<TweenLifetime>,
    scaleLifetimes: seq<TweenLifetime>,
    handleStates: map<TweenHandle, set<StateFlag>>)
  {
    /** Every list has one entry per slot and every listed handle has a state. */
    predicate Fits(handles: seq<TweenHandle?>)
    {
      |states| == |handles| && |positionLifetimes| == |handles|
      && |rotationLifetimes| == |handles| && |scaleLifetimes| == |handles|
      && forall h: TweenHandle | h in handles :: h in handleStates
    }
  }

  predicate AllConsistent(states: seq<TweenTransformState>)
  {
    forall j | 0 <= j < |states| :: Consistent(states[j].state)
  }

  /** RewindTransformLifetimes: restarts slot `i`'s three clocks. */
  function RewindLifetimes(f: Slots, i: nat): Slots
    requires i < |f.positionLifetimes| && i < |f.rotationLifetimes| && i < |f.scaleLifetimes|
  {
    f.(positionLifetimes := f.positionLifetimes[i := f.positionLifetimes[i].Restart()],
       rotationLifetimes := f.rotationLifetimes[i := f.rotationLifetimes[i].Restart()],
       scaleLifetimes := f.scaleLifetimes[i := f.scaleLifetimes[i].Restart()])
  }

  /**
   * One queued command. An index outside the slot list is dropped with a
   * warning. None where the tweener throws: NoAction (NotImplementedException)
   * or a slot without a handle (the handle's state is written through null).
   */
  function DrainStep(f: Slots, handles: seq<TweenHandle?>, a: TweenHandleAction): (r: Option<Slots>)
    requires f.Fits(handles)
    ensures r.Some? ==> r.value.Fits(handles) && r.value.handleStates.Keys == f.handleStates.Keys
    ensures !(0 <= a.index < |handles|) ==> r == Some(f)
    ensures 0 <= a.index < |handles| ==> (r.None? <==> a.actionType == NoAction || handles[a.index] == null)
    ensures r.Some? && 0 <= a.index < |handles| ==>
      var i := a.index;
      var g := r.value;
      g.states[i] == f.states[i].(state := ApplyAction(f.states[i].state, a.actionType).value)
      && g.handleStates == f.handleStates[handles[i] := g.states[i].state]
      && (forall j | 0 <= j < |handles| && j != i ::
            g.states[j] == f.states[j] && g.positionLifetimes[j] == f.positionLifetimes[j]
            && g.rotationLifetimes[j] == f.rotationLifetimes[j] && g.scaleLifetimes[j] == f.scaleLifetimes[j])
      && (a.actionType in {Rewind, Restart} ==>
            g.positionLifetimes[i] == f.positionLifetimes[i].Restart()
            && g.rotationLifetimes[i] == f.rotationLifetimes[i].Restart()
            && g.scaleLifetimes[i] == f.scaleLifetimes[i].Restart())
      && (a.actionType !in {Rewind, Restart} ==>
            g.positionLifetimes == f.positionLifetimes && g.rotationLifetimes == f.rotationLifetimes
            && g.scaleLifetimes == f.scaleLifetimes)
  {
    if !(0 <= a.index < |handles|) then Some(f)
    else
      var i := a.index;
      match ApplyAction(f.states[i].state, a.actionType)
      case None => None
      case Some(s) =>
        var h := handles[i];
        if h == null then None
        else
          var g := if a.actionType == Rewind || a.actionType == Restart then RewindLifetimes(f, i) else f;
          Some(g.(states := g.states[i := g.states[i].(state := s)], handleStates := g.handleStates[h := s]))
  }

  /** The whole queue `q`, oldest first; None once a command throws. */
  function DrainFrom(f: Slots, handles: seq<TweenHandle?>, q: seq<TweenHandleAction>): (r: Option<Slots>)
    requires f.Fits(handles)
    ensures r.Some? ==> r.value.Fits(handles) && r.value.handleStates.Keys == f.handleStates.Keys
    decreases |q|
  {
    if |q| == 0 then Some(f)
    else match DrainStep(f, handles, q[0])
      case None => None
      case Some(g) => DrainFrom(g, handles, q[1..])
  }

  /** The drain completes exactly when every queued command is drainable. */
  lemma {:induction false} DrainSucceedsIff(f: Slots, handles: seq<TweenHandle?>, q: seq<TweenHandleAction>)
    requires f.Fits(handles)
    ensures DrainFrom(f, handles, q).Some? <==> forall k | 0 <= k < |q| :: Drainable(handles, q[k])
    decreases |q|
  {
    if |q| > 0 {
      match DrainStep(f, handles, q[0])
      case None =>
      case Some(g) =>
        DrainSucceedsIff(g, handles, q[1..]);
        assert forall k | 1 <= k < |q| :: q[k] == q[1..][k - 1];
    }
  }

  /** The drain keeps every slot's state consistent. */
  lemma {:induction false} DrainKeepsConsistent(f: Slots, handles: seq<TweenHandle?>, q: seq<TweenHandleAction>)
    requires f.Fits(handles) && AllConsistent(f.states)
    ensures DrainFrom(f, handles, q).Some? ==> AllConsistent(DrainFrom(f, handles, q).value.states)
    decreases |q|
  {
    if |q| > 0 {
      match DrainStep(f, handles, q[0])
      case None =>
      case Some(g) =>
        if 0 <= q[0].index < |handles| {
          ApplyActionKeepsConsistent(f.states[q[0].index].state, q[0].actionType);
        }
        DrainKeepsConsistent(g, handles, q[1..]);
    }
  }

  /** A slot no queued command names keeps its state and clocks. */
  lemma {:induction false} DrainLeavesUnnamedSlots(f: Slots, handles: seq<TweenHandle?>, q: seq<TweenHandleAction>, j: int)
    requires f.Fits(handles) && 0 <= j < |handles|
    requires forall k | 0 <= k < |q| :: q[k].index != j
    ensures DrainFrom(f, handles, q).Some? ==>
      var g := DrainFrom(f, handles, q).value;
      g.states[j] == f.states[j] && g.positionLifetimes[j] == f.positionLifetimes[j]
      && g.rotationLifetimes[j] == f.rotationLifetimes[j] && g.scaleLifetimes[j] == f.scaleLifetimes[j]
    decreases |q|
  {
    if |q| > 0 {
      match DrainStep(f, handles, q[0])
      case None =>
      case Some(g) =>
        assert forall k | 0 <= k < |q[1..]| :: q[1..][k].index != j by {
          forall k | 0 <= k < |q[1..]| ensures q[1..][k].index != j { assert q[1..][k] == q[k + 1]; }
        }
        DrainLeavesUnnamedSlots(g, handles, q[1..], j);
    }
  }

  // ----- start capture -----

  datatype StartResult = StartResult(slots: Slots, started: seq<TweenHandle>)

  predicate StartsNow(s: TweenTransformState)
  {
    StateFlag.IsPlaying in s.state && StateFlag.JustStarted in s.state
  }

  /** A slot that is playing and just started loses JustStarted; its handle, if any, is queued for Started. */
  function StartStep(r: StartResult, handles: seq<TweenHandle?>, i: int): StartResult
    requires r.slots.Fits(handles) && 0 <= i < |handles|
  {
    var f := r.slots;
    var s := f.states[i];
    if StartsNow(s) then
      var s2 := s.(state := s.state - {StateFlag.JustStarted});
      var g := f.(states := f.states[i := s2]);
      var h := handles[i];
      if h != null then StartResult(g.(handleStates := g.handleStates[h := s2.state]), r.started + [h])
      else StartResult(g, r.started)
    else r
  }

  /** The capture over slots 0 .. n-1, in slot order. */
  function StartPass(f: Slots, handles: seq<TweenHandle?>, n: int): (r: StartResult)
    requires f.Fits(handles) && 0 <= n <= |handles|
    ensures r.slots.Fits(handles) && r.slots.handleStates.Keys == f.handleStates.Keys
    ensures r.slots.positionLifetimes == f.positionLifetimes && r.slots.rotationLifetimes == f.rotationLifetimes
    ensures r.slots.scaleLifetimes == f.scaleLifetimes
    decreases n
  {
    if n == 0 then StartResult(f, [])
    else StartStep(StartPass(f, handles, n - 1), handles, n - 1)
  }

  /**
   * After the capture over slots 0 .. n-1 exactly the starting slots among
   * them have lost JustStarted, and the handles queued for Started are those
   * of the starting slots, in slot order.
   */
  lemma {:induction false} StartPassEffect(f: Slots, handles: seq<TweenHandle?>, n: int)
    requires f.Fits(handles) && 0 <= n <= |handles|
    ensures var r := StartPass(f, handles, n);
      (forall j | 0 <= j < |handles| ::
        r.slots.states[j] == (if j < n && StartsNow(f.states[j])
                              then f.states[j].(state := f.states[j].state - {StateFlag.JustStarted})
                              else f.states[j]))
      && (forall h :: h in r.started <==> exists j :: 0 <= j < n && handles[j] == h && StartsNow(f.states[j]))
      && |r.started| <= n
    decreases n
  {
    if n > 0 {
      StartPassEffect(f, handles, n - 1);
      var p := StartPass(f, handles, n - 1);
      assert p.slots.states[n - 1] == f.states[n - 1];
    }
  }

  /**
   * UpdateTweens on slot data `f` with command queue `q`: nothing when there
   * are no slots; otherwise the drain, then the start capture over every
   * slot. None where the drain throws.
   */
  function UpdateOutcome(f: Slots, handles: seq<TweenHandle?>, q: seq<TweenHandleAction>): (r: Option<StartResult>)
    requires f.Fits(handles)
    ensures |handles| == 0 ==> r == Some(StartResult(f, []))
    ensures |handles| > 0 ==> (r.Some? <==> forall k | 0 <= k < |q| :: Drainable(handles, q[k]))
    ensures r.Some? ==> r.value.slots.Fits(handles)
  {
    if |handles| == 0 then Some(StartResult(f, []))
    else
      DrainSucceedsIff(f, handles, q);
      match DrainFrom(f, handles, q)
      case None => None
      case Some(g) => Some(StartPass(g, handles, |handles|))
  }

  /**
   * After UpdateTweens on consistent slots every slot is still consistent,
   * and none is left playing and just started: each start has been captured.
   */
  lemma UpdateSettlesStarts(f: Slots, handles: seq<TweenHandle?>, q: seq<TweenHandleAction>)
    requires f.Fits(handles) && AllConsistent(f.states)
    ensures var r := UpdateOutcome(f, handles, q);
      r.Some? ==> AllConsistent(r.value.slots.states)
                  && forall j | 0 <= j < |handles| :: !StartsNow(r.value.slots.states[j])
  {
    if |handles| > 0 {
      DrainKeepsConsistent(f, handles, q);
      match DrainFrom(f, handles, q)
      case None =>
      case Some(g) =>
        StartPassEffect(g, handles, |handles|);
    }
  }

  // ----- late (completion) pass -----

  /** CompletedIndexLimit: a slot is marked for recycling only while at most 500 are marked. */
  const CompletedIndexLimit: int := 500

  datatype LateResult = LateResult(slots: Slots, marked: seq<int>, ended: seq<TweenHandle>)

  predicate EndsNow(s: TweenTransformState)
  {
    StateFlag.IsCompleted in s.state && StateFlag.JustEnded in s.state
  }

  /** The state the late pass leaves in a slot: a completed slot loses JustEnded. */
  function LateState(s: TweenTransformState): TweenTransformState
  {
    if EndsNow(s) then s.(state := s.state - {StateFlag.JustEnded}) else s
  }

  /**
   * Slot `i` of the late pass: its handle takes the slot's state; a completed
   * slot that just ended loses JustEnded and queues its handle for Completed;
   * a completed slot awaiting recycling is marked while few enough are.
   */
  function LateStep(r: LateResult, handles: seq<TweenHandle?>, i: int): LateResult
    requires r.slots.Fits(handles) && 0 <= i < |handles|
  {
    var f := r.slots;
    var s := f.states[i];
    var h := handles[i];
    var s2 := LateState(s);
    var hs := if h != null then f.handleStates[h := s2.state] else f.handleStates;
    var ev := if EndsNow(s) && h != null then [h] else [];
    var mk := if StateFlag.IsCompleted in s.state && |r.marked| <= CompletedIndexLimit
                 && StateFlag.RequiresRecycling in s2.state then [i] else [];
    LateResult(f.(states := f.states[i := s2], handleStates := hs), r.marked + mk, r.ended + ev)
  }

  /** The late pass over slots k-1 down to 0. */
  function LatePass(r: LateResult, handles: seq<TweenHandle?>, k: int): (q: LateResult)
    requires r.slots.Fits(handles) && 0 <= k <= |handles|
    ensures q.slots.Fits(handles) && q.slots.handleStates.Keys == r.slots.handleStates.Keys
    ensures q.slots.positionLifetimes == r.slots.positionLifetimes
    ensures q.slots.rotationLifetimes == r.slots.rotationLifetimes
    ensures q.slots.scaleLifetimes == r.slots.scaleLifetimes
    decreases k
  {
    if k == 0 then r else LatePass(LateStep(r, handles, k - 1), handles, k - 1)
  }

  /**
   * What the late pass over slots k-1 .. 0 does: those slots lose JustEnded
   * when completed, the others keep their state; handles of just-ended slots
   * are queued for Completed; a handle not listed below k keeps its state.
   */
  lemma {:induction false} LatePassStates(r: LateResult, handles: seq<TweenHandle?>, k: int)
    requires r.slots.Fits(handles) && 0 <= k <= |handles|
    ensures var q := LatePass(r, handles, k);
      (forall j | 0 <= j < |handles| ::
        q.slots.states[j] == (if j < k then LateState(r.slots.states[j]) else r.slots.states[j]))
      && (forall h: TweenHandle | h in handles && h !in handles[..k] ::
            q.slots.handleStates[h] == r.slots.handleStates[h])
      && (forall h :: h in q.ended <==>
            h in r.ended || exists j :: 0 <= j < k && handles[j] == h && EndsNow(r.slots.states[j]))
    decreases k
  {
    if k > 0 {
      var r1 := LateStep(r, handles, k - 1);
      LatePassStates(r1, handles, k - 1);
      forall h: TweenHandle | h in handles && h !in handles[..k]
        ensures h !in handles[..k - 1] && handles[k - 1] != h
      {
        assert handles[..k] == handles[..k - 1] + [handles[k - 1]];
      }
    }
  }

  /**
   * After the late pass every handle carries the state of the first slot
   * that lists it: the slot its commands are queued for.
   */
  lemma {:induction false} LatePassSyncsHandles(r: LateResult, handles: seq<TweenHandle?>, k: int, j: int)
    requires r.slots.Fits(handles) && 0 <= j < k <= |handles|
    requires handles[j] != null && handles[j] !in handles[..j]
    ensures LatePass(r, handles, k).slots.handleStates[handles[j]] == LatePass(r, handles, k).slots.states[j].state
    decreases k
  {
    var r1 := LateStep(r, handles, k - 1);
    if j < k - 1 {
      LatePassSyncsHandles(r1, handles, k - 1, j);
    } else {
      LatePassStates(r1, handles, k - 1);
    }
  }

  /**
   * The slots the late pass marks are distinct, listed from the highest
   * down, below the slot count and at most 501; the pass only appends to the
   * marks it was given.
   */
  lemma {:induction false} LatePassMarks(r: LateResult, handles: seq<TweenHandle?>, k: int)
    requires r.slots.Fits(handles) && 0 <= k <= |handles|
    requires StrictlyDescending(r.marked) && forall x | x in r.marked :: k <= x < |handles|
    requires |r.marked| <= CompletedIndexLimit + 1
    ensures var q := LatePass(r, handles, k);
      StrictlyDescending(q.marked) && |q.marked| <= CompletedIndexLimit + 1
      && (forall x | x in q.marked :: 0 <= x < |handles|)
      && |r.marked| <= |q.marked| && q.marked[..|r.marked|] == r.marked
      && (forall a | |r.marked| <= a < |q.marked| :: q.marked[a] < k)
    decreases k
  {
    if k > 0 {
      var r1 := LateStep(r, handles, k - 1);
      LateStepMarks(r, handles, k);
      LatePassMarks(r1, handles, k - 1);
      var q := LatePass(r, handles, k);
      assert q.marked[..|r.marked|] == r.marked by {
        assert r1.marked[..|r.marked|] == r.marked;
        assert q.marked[..|r1.marked|] == r1.marked;
      }
    }
  }

  lemma LateStepMarks(r: LateResult, handles: seq<TweenHandle?>, k: int)
    requires r.slots.Fits(handles) && 0 < k <= |handles|
    requires StrictlyDescending(r.marked) && forall x | x in r.marked :: k <= x < |handles|
    ensures var r1 := LateStep(r, handles, k - 1);
      StrictlyDescending(r1.marked) && (forall x | x in r1.marked :: k - 1 <= x < |handles|)
      && |r1.marked| <= |r.marked| + 1 && (|r.marked| > CompletedIndexLimit ==> r1.marked == r.marked)
  {
    var r1 := LateStep(r, handles, k - 1);
    forall a, b | 0 <= a < b < |r1.marked| ensures r1.marked[a] > r1.marked[b] {
      if b >= |r.marked| {
        assert r1.marked[a] in r.marked;
      }
    }
  }

  /** Every slot the late pass marks is completed and awaiting recycling. */
  lemma {:induction false} LatePassMarksRecyclable(r: LateResult, handles: seq<TweenHandle?>, k: int)
    requires r.slots.Fits(handles) && 0 <= k <= |handles|
    requires StrictlyDescending(r.marked) && forall x | x in r.marked :: k <= x < |handles|
    requires |r.marked| <= CompletedIndexLimit + 1
    ensures var q := LatePass(r, handles, k);
      forall x | x in q.marked && 0 <= x < k ::
        StateFlag.IsCompleted in q.slots.states[x].state && StateFlag.RequiresRecycling in q.slots.states[x].state
    decreases k
  {
    if k > 0 {
      var r1 := LateStep(r, handles, k - 1);
      LateStepMarks(r, handles, k);
      LatePassMarks(r, handles, k);
      LatePassMarks(r1, handles, k - 1);
      LatePassMarksRecyclable(r1, handles, k - 1);
      LatePassStates(r1, handles, k - 1);
      var q := LatePass(r, handles, k);
      forall x | x in q.marked && 0 <= x < k
        ensures StateFlag.IsCompleted in q.slots.states[x].state && StateFlag.RequiresRecycling in q.slots.states[x].state
      {
        if x == k - 1 {
          var a :| 0 <= a < |q.marked| && q.marked[a] == x;
          assert a < |r1.marked|;
          assert q.marked[..|r1.marked|][a] == x;
          assert x in r1.marked;
          assert x !in r.marked;
        }
      }
    }
  }

  /** On consistent slots the late pass leaves no slot just ended. */
  lemma LatePassClearsJustEnded(r: LateResult, handles: seq<TweenHandle?>)
    requires r.slots.Fits(handles) && AllConsistent(r.slots.states)
    ensures forall j | 0 <= j < |handles| :: StateFlag.JustEnded !in LatePass(r, handles, |handles|).slots.states[j].state
  {
    LatePassStates(r, handles, |handles|);
  }

  /** The late pass of LateUpdateTweens: every slot, from the last down, with no slot marked yet. */
  function LateOutcome(f: Slots, handles: seq<TweenHandle?>): (q: LateResult)
    requires f.Fits(handles)
    ensures q.slots.Fits(handles) && q.slots.handleStates.Keys == f.handleStates.Keys
    ensures StrictlyDescending(q.marked) && |q.marked| <= CompletedIndexLimit + 1
    ensures forall x | x in q.marked :: 0 <= x < |handles|
  {
    LatePassMarks(LateResult(f, [], []), handles, |handles|);
    LatePass(LateResult(f, [], []), handles, |handles|)
  }

  /** The late pass only queues handles that the slots list. */
  lemma {:induction false} LatePassEndsListed(r: LateResult, handles: seq<TweenHandle?>, k: int)
    requires r.slots.Fits(handles) && 0 <= k <= |handles|
    requires forall h | h in r.ended :: h in handles
    ensures forall h | h in LatePass(r, handles, k).ended :: h in handles
    decreases k
  {
    if k > 0 {
      LatePassEndsListed(LateStep(r, handles, k - 1), handles, k - 1);
    }
  }

  /** Every handle the late pass queues for Completed is listed in a slot. */
  lemma LateOutcomeEndsListed(f: Slots, handles: seq<TweenHandle?>)
    requires f.Fits(handles)
    ensures forall h | h in LateOutcome(f, handles).ended :: h in handles
  {
    LatePassEndsListed(LateResult(f, [], []), handles, |handles|);
  }
}
