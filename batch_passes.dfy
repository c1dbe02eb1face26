// The newer batch tweener's data stated on values. A batch owns a contiguous
// run of slots in the shared slot lists; the batches tile those lists in
// order. The per-frame passes (command drain, start capture, late pass with
// compaction) are functions here, and the tweener's methods are proved to
// compute them.

module BatchPasses {
  import opened TweenTypes
  import opened TweenValues
  import opened Lifetime
  import opened TransformState
  import opened Commands
  import opened Handles
  import opened FastLists
  import opened BatchState
  import opened TransformSlots
  import opened SinglePasses

  /** The largest C# `int`: no list holds more slots than this. */
  const IntMax: int := 0x7FFF_FFFF

  // ----- tiling -----

  /** Slot `j` lies in batch `b`. */
  predicate InBatch(b: TweenTransformBatchState, j: int)
  {
    b.startIndex <= j < b.startIndex + b.length
  }


  /**
   * The batches tile slots `start` .. `n`-1 in order: the first starts at
   * `start` and each starts where the one before it ends, the last at `n`.
   */
  predicate TilesFrom(b: seq<TweenTransformBatchState>, start: int, n: int)
    decreases |b|
  {
    if |b| == 0 then start == n
    else b[0].startIndex == start && TilesFrom(b[1..], start + b[0].length, n)
  }

  /** The batches tile all `n` slots. */
  predicate Tiled(b: seq<TweenTransformBatchState>, n: int)
  {
    TilesFrom(b, 0, n)
  }

  /** The same tiling, stated batch by batch. */
  predicate Chain(b: seq<TweenTransformBatchState>, start: int, n: int)
  {
    (if |b| == 0 then start == n else b[0].startIndex == start && b[|b| - 1].startIndex + b[|b| - 1].length == n)
    && forall j, k | 0 <= j < |b| && 0 <= k < |b| && k == j + 1 :: b[k].startIndex == b[j].startIndex + b[j].length
  }

  lemma {:induction false} ChainIff(b: seq<TweenTransformBatchState>, start: int, n: int)
    ensures TilesFrom(b, start, n) <==> Chain(b, start, n)
    decreases |b|
  {
    if |b| > 0 {
      var t := b[1..];
      ChainIff(t, start + b[0].length, n);
      if Chain(b, start, n) {
        forall j, k | 0 <= j < |t| && 0 <= k < |t| && k == j + 1 ensures t[k].startIndex == t[j].startIndex + t[j].length {
          assert t[k] == b[k + 1] && t[j] == b[j + 1];
        }
        if |t| > 0 {
          assert t[0] == b[1] && t[|t| - 1] == b[|b| - 1];
        }
      }
      if TilesFrom(b, start, n) {
        forall j, k | 0 <= j < |b| && 0 <= k < |b| && k == j + 1 ensures b[k].startIndex == b[j].startIndex + b[j].length {
          if j > 0 {
            assert b[k] == t[k - 1] && b[j] == t[j - 1];
          } else {
            assert b[1] == t[0];
          }
        }
        if |t| > 0 {
          assert t[|t| - 1] == b[|b| - 1];
        }
      }
    }
  }

  /** Under tiling every batch ends within the slots. */
  lemma {:induction false} TiledBatchEnd(b: seq<TweenTransformBatchState>, n: int, k: int)
    requires Tiled(b, n) && 0 <= k < |b|
    ensures b[k].startIndex + b[k].length <= n
    decreases |b| - k
  {
    ChainIff(b, 0, n);
    if k < |b| - 1 {
      TiledBatchEnd(b, n, k + 1);
    }
  }

  /** Under tiling batches lie in slot order and never overlap. */
  lemma {:induction false} TiledBatchesDisjoint(b: seq<TweenTransformBatchState>, n: int, j: int, k: int)
    requires Tiled(b, n) && 0 <= j < k < |b|
    ensures b[j].startIndex + b[j].length <= b[k].startIndex
    decreases k - j
  {
    ChainIff(b, 0, n);
    if k > j + 1 {
      TiledBatchesDisjoint(b, n, j, k - 1);
    }
  }

  lemma {:induction false} TiledCoversSlotFrom(b: seq<TweenTransformBatchState>, n: int, x: int, m: int)
    requires Tiled(b, n) && x < n && 0 <= m < |b| && b[m].startIndex <= x
    ensures exists k :: 0 <= k < |b| && InBatch(b[k], x)
    decreases |b| - m
  {
    ChainIff(b, 0, n);
    if !InBatch(b[m], x) {
      TiledCoversSlotFrom(b, n, x, m + 1);
    }
  }

  /** Under tiling every slot belongs to a batch (exactly one, by TiledBatchesDisjoint). */
  lemma TiledCoversSlot(b: seq<TweenTransformBatchState>, n: int, x: int)
    requires Tiled(b, n) && 0 <= x < n
    ensures exists k :: 0 <= k < |b| && InBatch(b[k], x)
  {
    ChainIff(b, 0, n);
    TiledCoversSlotFrom(b, n, x, 0);
  }

  /** A batch appended at the end of the slots keeps the tiling. */
  lemma TiledAppend(b: seq<TweenTransformBatchState>, n: int, x: TweenTransformBatchState)
    requires Tiled(b, n) && x.startIndex == n
    ensures Tiled(b + [x], n + x.length)
  {
    ChainIff(b, 0, n);
    ChainIff(b + [x], 0, n + x.length);
  }

  /** Same start indices and lengths: only the states may differ. */
  predicate SameSpans(b: seq<TweenTransformBatchState>, c: seq<TweenTransformBatchState>)
  {
    |b| == |c| && forall k | 0 <= k < |b| :: b[k].startIndex == c[k].startIndex && b[k].length == c[k].length
  }

  /** Tiling depends only on the spans, not on the batch states. */
  lemma TiledSameSpans(b: seq<TweenTransformBatchState>, c: seq<TweenTransformBatchState>, n: int)
    requires Tiled(b, n) && SameSpans(b, c)
    ensures Tiled(c, n)
  {
    ChainIff(b, 0, n);
    ChainIff(c, 0, n);
  }

  /** `startIndex -= d` on every batch, as the uint subtraction it is. */
  function ShiftDown(b: seq<TweenTransformBatchState>, d: uint32): seq<TweenTransformBatchState>
  {
    seq(|b|, k requires 0 <= k < |b| => b[k].(startIndex := UintSub(b[k].startIndex, d)))
  }

  /**
   * The batch list after batch `i` is recycled: it is removed and every later
   * batch moves down by its length.
   */
  function RemoveBatch(b: seq<TweenTransformBatchState>, i: int): (r: seq<TweenTransformBatchState>)
    requires 0 <= i < |b|
    ensures |r| == |b| - 1
  {
    b[..i] + ShiftDown(b[i + 1..], b[i].length)
  }

  /** The shift loop followed by the removal of batch `i` leaves RemoveBatch. */
  lemma ShiftThenRemove(b: seq<TweenTransformBatchState>, i: int)
    requires 0 <= i < |b|
    ensures RemoveAtSeq(b[..i + 1] + ShiftDown(b[i + 1..], b[i].length), i) == RemoveBatch(b, i)
  {
    var s := b[..i + 1] + ShiftDown(b[i + 1..], b[i].length);
    assert s[..i] == b[..i];
    assert s[i + 1..] == ShiftDown(b[i + 1..], b[i].length);
  }

  /** Entry `k` of RemoveBatch: an earlier batch as it was, a later one moved down by batch `i`'s length. */
  lemma RemoveBatchEntry(b: seq<TweenTransformBatchState>, i: int, k: int)
    requires 0 <= i < |b| && 0 <= k < |b| - 1
    requires k >= i ==> b[i].length <= b[k + 1].startIndex
    ensures RemoveBatch(b, i)[k]
      == if k < i then b[k] else b[k + 1].(startIndex := b[k + 1].startIndex - b[i].length)
  {
    if k >= i {
      assert RemoveBatch(b, i)[k] == ShiftDown(b[i + 1..], b[i].length)[k - i];
    }
  }

  lemma ChainRemove(b: seq<TweenTransformBatchState>, n: int, i: int)
    requires Chain(b, 0, n) && 0 <= i < |b|
    requires forall k | i < k < |b| :: b[i].startIndex + b[i].length <= b[k].startIndex
    ensures Chain(RemoveBatch(b, i), 0, n - b[i].length)
  {
    var c := RemoveBatch(b, i);
    forall j, k | 0 <= j < |c| && 0 <= k < |c| && k == j + 1 ensures c[k].startIndex == c[j].startIndex + c[j].length {
      RemoveBatchEntry(b, i, j);
      RemoveBatchEntry(b, i, k);
    }
    if |c| > 0 {
      RemoveBatchEntry(b, i, 0);
      RemoveBatchEntry(b, i, |c| - 1);
    }
  }

  /** Recycling a batch keeps the tiling, over the slots that remain. */
  lemma TiledRemove(b: seq<TweenTransformBatchState>, n: int, i: int)
    requires Tiled(b, n) && 0 <= i < |b|
    ensures Tiled(RemoveBatch(b, i), n - b[i].length)
  {
    forall k | i < k < |b| ensures b[i].startIndex + b[i].length <= b[k].startIndex {
      TiledBatchesDisjoint(b, n, i, k);
    }
    ChainIff(b, 0, n);
    ChainRemove(b, n, i);
    ChainIff(RemoveBatch(b, i), 0, n - b[i].length);
  }

  // ----- the tweener's data -----

  /** The batches with their clocks and handles, the slot lists, and the state of every known handle. */
  datatype BatchData = BatchData(
    batches: seq<TweenTransformBatchState>,
    batchLifetimes: seq<TweenLifetime>,
    handles: seq<TweenHandle?>,
    slots: SlotLists,
    handleStates: map<TweenHandle, set<StateFlag>>)
  {
    /** One clock and one handle entry per batch; the batches tile the slots; every listed handle has a state. */
    predicate Fits()
    {
      |batchLifetimes| == |batches| && |handles| == |batches| && slots.Aligned()
      && Tiled(batches, |slots.transforms|)
      && forall h: TweenHandle | h in handles :: h in handleStates
    }
  }

  predicate BatchesConsistent(b: seq<TweenTransformBatchState>)
  {
    forall k | 0 <= k < |b| :: Consistent(b[k].state)
  }

  // ----- command drain -----

  /** The slots of batch `b` take the state flags `s`; the others keep theirs. */
  function SetBatchStates(states: seq<TweenTransformState>, b: TweenTransformBatchState, s: set<StateFlag>)
    : seq<TweenTransformState>
  {
    seq(|states|, j requires 0 <= j < |states| => if InBatch(b, j) then states[j].(state := s) else states[j])
  }

  /** The clocks of batch `b`'s slots restart; the others keep theirs. */
  function RestartBatchClocks(lts: seq<TweenLifetime>, b: TweenTransformBatchState): seq<TweenLifetime>
  {
    seq(|lts|, j requires 0 <= j < |lts| => if InBatch(b, j) then lts[j].Restart() else lts[j])
  }

  /** The new batch state copied into every slot of the batch, whose three clocks restart when `restart`. */
  function PropagateBatch(slots: SlotLists, b: TweenTransformBatchState, s: set<StateFlag>, restart: bool): (r: SlotLists)
    requires slots.Aligned()
    ensures r.Aligned()
    ensures r.transforms == slots.transforms && r.positions == slots.positions
    ensures r.rotations == slots.rotations && r.scales == slots.scales
  {
    var states := SetBatchStates(slots.states, b, s);
    if restart then
      slots.(states := states,
             positionLifetimes := RestartBatchClocks(slots.positionLifetimes, b),
             rotationLifetimes := RestartBatchClocks(slots.rotationLifetimes, b),
             scaleLifetimes := RestartBatchClocks(slots.scaleLifetimes, b))
    else slots.(states := states)
  }

  /**
   * One queued command, applied with its own type to batch `a.index`. An
   * index outside the batch list is dropped with a warning. The batch state
   * changes as ApplyAction says, its handle and every slot of the batch take
   * the new state, and Rewind and Restart restart the batch's clock and its
   * slots' clocks. None where the tweener throws: NoAction, or a batch
   * without a handle.
   */
  function BatchDrainStep(f: BatchData, a: TweenHandleAction): (r: Option<BatchData>)
    requires f.Fits()
    ensures r.Some? ==> (r.value.Fits() && r.value.handles == f.handles
      && r.value.handleStates.Keys == f.handleStates.Keys && SameSpans(r.value.batches, f.batches))
    ensures !(0 <= a.index < |f.batches|) ==> r == Some(f)
    ensures 0 <= a.index < |f.batches| ==> (r.None? <==> !Drainable(f.handles, a))
  {
    if !(0 <= a.index < |f.batches|) then Some(f)
    else
      var i := a.index;
      var b := f.batches[i];
      match ApplyAction(b.state, a.actionType)
      case None => None
      case Some(s) =>
        var h := f.handles[i];
        if h == null then None
        else
          var restart := a.actionType == Rewind || a.actionType == Restart;
          var batches := f.batches[i := b.(state := s)];
          TiledSameSpans(f.batches, batches, |f.slots.transforms|);
          Some(BatchData(batches,
            if restart then f.batchLifetimes[i := f.batchLifetimes[i].Restart()] else f.batchLifetimes,
            f.handles, PropagateBatch(f.slots, b, s, restart), f.handleStates[h := s]))
  }

  /** A drainable command on a listed batch: the step's result, spelled out. */
  lemma BatchDrainStepApplies(f: BatchData, a: TweenHandleAction, s: set<StateFlag>)
    requires f.Fits() && 0 <= a.index < |f.batches| && f.handles[a.index] != null
    requires ApplyAction(f.batches[a.index].state, a.actionType) == Some(s)
    ensures var i, restart := a.index, a.actionType == Rewind || a.actionType == Restart;
      BatchDrainStep(f, a) == Some(BatchData(f.batches[i := f.batches[i].(state := s)],
        if restart then f.batchLifetimes[i := f.batchLifetimes[i].Restart()] else f.batchLifetimes,
        f.handles, PropagateBatch(f.slots, f.batches[i], s, restart), f.handleStates[f.handles[i] := s]))
  {
  }

  /**
   * What one drained command does: the batch takes the new state, and so do
   * its handle and exactly the slots of the batch; the other batches are
   * untouched; Rewind and Restart restart the batch clock and exactly the
   * clocks of the batch's slots.
   */
  lemma BatchDrainStepEffect(f: BatchData, a: TweenHandleAction)
    requires f.Fits()
    ensures var r := BatchDrainStep(f, a);
      r.Some? && 0 <= a.index < |f.batches| ==>
      var i, b, g := a.index, f.batches[a.index], r.value;
      var s := ApplyAction(b.state, a.actionType).value;
      var restart := a.actionType in {Rewind, Restart};
      g.batches[i].state == s && g.handleStates == f.handleStates[f.handles[i] := s]
      && (forall k | 0 <= k < |f.batches| && k != i :: g.batches[k] == f.batches[k])
      && g.batchLifetimes == (if restart then f.batchLifetimes[i := f.batchLifetimes[i].Restart()] else f.batchLifetimes)
      && (forall j | 0 <= j < |f.slots.states| ::
            g.slots.states[j] == (if InBatch(b, j) then f.slots.states[j].(state := s) else f.slots.states[j])
            && g.slots.positionLifetimes[j] == (if restart && InBatch(b, j) then f.slots.positionLifetimes[j].Restart()
                                                else f.slots.positionLifetimes[j])
            && g.slots.rotationLifetimes[j] == (if restart && InBatch(b, j) then f.slots.rotationLifetimes[j].Restart()
                                                else f.slots.rotationLifetimes[j])
            && g.slots.scaleLifetimes[j] == (if restart && InBatch(b, j) then f.slots.scaleLifetimes[j].Restart()
                                             else f.slots.scaleLifetimes[j]))
  {
  }

  /** The whole queue `q`, oldest first; None once a command throws. */
  function BatchDrainFrom(f: BatchData, q: seq<TweenHandleAction>): (r: Option<BatchData>)
    requires f.Fits()
    ensures r.Some? ==> (r.value.Fits() && r.value.handles == f.handles
      && r.value.handleStates.Keys == f.handleStates.Keys && SameSpans(r.value.batches, f.batches))
    decreases |q|
  {
    if |q| == 0 then Some(f)
    else match BatchDrainStep(f, q[0])
      case None => None
      case Some(g) => BatchDrainFrom(g, q[1..])
  }

  /** The drain completes exactly when every queued command is drainable. */
  lemma {:induction false} BatchDrainSucceedsIff(f: BatchData, q: seq<TweenHandleAction>)
    requires f.Fits()
    ensures BatchDrainFrom(f, q).Some? <==> forall k | 0 <= k < |q| :: Drainable(f.handles, q[k])
    decreases |q|
  {
    if |q| > 0 {
      match BatchDrainStep(f, q[0])
      case None =>
      case Some(g) =>
        BatchDrainSucceedsIff(g, q[1..]);
        assert forall k | 1 <= k < |q| :: q[k] == q[1..][k - 1];
    }
  }

  /** Commands keep consistent batch and slot states consistent. */
  lemma {:induction false} BatchDrainKeepsConsistent(f: BatchData, q: seq<TweenHandleAction>)
    requires f.Fits() && BatchesConsistent(f.batches) && AllConsistent(f.slots.states)
    ensures var r := BatchDrainFrom(f, q);
      r.Some? ==> BatchesConsistent(r.value.batches) && AllConsistent(r.value.slots.states)
    decreases |q|
  {
    if |q| > 0 {
      match BatchDrainStep(f, q[0])
      case None =>
      case Some(g) =>
        if 0 <= q[0].index < |f.batches| {
          ApplyActionKeepsConsistent(f.batches[q[0].index].state, q[0].actionType);
        }
        BatchDrainKeepsConsistent(g, q[1..]);
    }
  }

  /**
   * The drain step as the tweener writes it: the queued command's type is
   * ignored and the handle's latest command (`actionTypes`) is applied; a
   * batch without a handle throws before anything changes.
   */
  function BatchDrainStepAsWritten(f: BatchData, actionTypes: map<TweenHandle, HandleActionType>, a: TweenHandleAction)
    : (r: Option<BatchData>)
    requires f.Fits() && forall h: TweenHandle | h in f.handles :: h in actionTypes
    ensures r.Some? ==> r.value.Fits() && r.value.handles == f.handles
  {
    if !(0 <= a.index < |f.batches|) then Some(f)
    else if f.handles[a.index] == null then None
    else BatchDrainStep(f, a.(actionType := actionTypes[f.handles[a.index]]))
  }

  function BatchDrainFromAsWritten(f: BatchData, actionTypes: map<TweenHandle, HandleActionType>, q: seq<TweenHandleAction>)
    : Option<BatchData>
    requires f.Fits() && forall h: TweenHandle | h in f.handles :: h in actionTypes
    decreases |q|
  {
    if |q| == 0 then Some(f)
    else match BatchDrainStepAsWritten(f, actionTypes, q[0])
      case None => None
      case Some(g) => BatchDrainFromAsWritten(g, actionTypes, q[1..])
  }

  /** A playing one-slot batch whose handle `h` is listed, with a clock half way through. */
  function PlayingBatch(h: TweenHandle, lt: TweenLifetime): BatchData
  {
    var playing := {StateFlag.IsPlaying, StateFlag.HasHandle};
    BatchData([TweenTransformBatchState(0, 1, playing)], [lt], [h],
      SlotLists([Transform(0)], [TweenTransformState(playing, {Movement}, {})], [DefaultTweenFloat3],
                [DefaultTweenRotation], [DefaultTweenFloat3], [lt], [lt], [lt]),
      map[h := playing])
  }

  /**
   * Restart() then Pause() on a batch's handle in one frame queues Restart and
   * Pause. As written both are drained as Pause (the handle's latest command),
   * so the batch clock is not restarted; drained with their own types, it is.
   */
  lemma RestartThenPauseLosesRestart(h: TweenHandle)
    ensures var lt := TweenLifetime(1.0, 0.5, 0, 0, Linear, NoLoop, false);
      var f := PlayingBatch(h, lt);
      var q := [TweenHandleAction(Restart, 0), TweenHandleAction(Pause, 0)];
      f.Fits()
      && BatchDrainFromAsWritten(f, map[h := Pause], q).Some?
      && BatchDrainFromAsWritten(f, map[h := Pause], q).value.batchLifetimes == [lt]
      && BatchDrainFrom(f, q).Some?
      && BatchDrainFrom(f, q).value.batchLifetimes == [lt.Restart()]
      && lt.Restart() != lt
  {
    var lt := TweenLifetime(1.0, 0.5, 0, 0, Linear, NoLoop, false);
    PlayingBatchFits(h, lt);
    RestartThenPauseAsWritten(h, lt);
    RestartThenPauseOwnTypes(h, lt);
  }

  lemma PlayingBatchFits(h: TweenHandle, lt: TweenLifetime)
    ensures PlayingBatch(h, lt).Fits()
  {
    assert PlayingBatch(h, lt).batches[1..] == [];
  }

  /** A step that does not throw restarts the batch clock exactly on Rewind and Restart. */
  lemma BatchDrainStepClock(f: BatchData, a: TweenHandleAction)
    requires f.Fits() && 0 <= a.index < |f.batches| && f.handles[a.index] != null && a.actionType != NoAction
    ensures BatchDrainStep(f, a).Some?
    ensures BatchDrainStep(f, a).value.handles == f.handles
    ensures BatchDrainStep(f, a).value.batchLifetimes
            == if a.actionType == Rewind || a.actionType == Restart
               then f.batchLifetimes[a.index := f.batchLifetimes[a.index].Restart()] else f.batchLifetimes
  {
  }

  /** As written, both queued commands drain as Pause and the clock stays. */
  lemma RestartThenPauseAsWritten(h: TweenHandle, lt: TweenLifetime)
    requires PlayingBatch(h, lt).Fits()
    ensures var q := [TweenHandleAction(Restart, 0), TweenHandleAction(Pause, 0)];
      BatchDrainFromAsWritten(PlayingBatch(h, lt), map[h := Pause], q).Some?
      && BatchDrainFromAsWritten(PlayingBatch(h, lt), map[h := Pause], q).value.batchLifetimes == [lt]
  {
    var f := PlayingBatch(h, lt);
    var m := map[h := Pause];
    var q := [TweenHandleAction(Restart, 0), TweenHandleAction(Pause, 0)];
    var pause := TweenHandleAction(Pause, 0);
    assert q[0].(actionType := m[h]) == pause;
    BatchDrainStepClock(f, pause);
    var w1 := BatchDrainStep(f, pause).value;
    BatchDrainStepClock(w1, pause);
    var w2 := BatchDrainStep(w1, pause).value;
    assert q[1..] == [q[1]] && q[1..][1..] == [];
    assert BatchDrainFromAsWritten(f, m, q) == Some(w2);
  }

  /** Drained with their own types, the Restart restarts the clock and the Pause keeps it so. */
  lemma RestartThenPauseOwnTypes(h: TweenHandle, lt: TweenLifetime)
    requires PlayingBatch(h, lt).Fits()
    ensures var q := [TweenHandleAction(Restart, 0), TweenHandleAction(Pause, 0)];
      BatchDrainFrom(PlayingBatch(h, lt), q).Some?
      && BatchDrainFrom(PlayingBatch(h, lt), q).value.batchLifetimes == [lt.Restart()]
  {
    var f := PlayingBatch(h, lt);
    var q := [TweenHandleAction(Restart, 0), TweenHandleAction(Pause, 0)];
    BatchDrainStepClock(f, q[0]);
    var c1 := BatchDrainStep(f, q[0]).value;
    BatchDrainStepClock(c1, q[1]);
    var c2 := BatchDrainStep(c1, q[1]).value;
    assert q[1..] == [q[1]] && q[1..][1..] == [];
    assert BatchDrainFrom(f, q) == Some(c2);
  }

  // ----- start capture -----

  datatype BatchStart = BatchStart(data: BatchData, started: seq<TweenHandle>)

  predicate BatchStartsNow(b: TweenTransformBatchState)
  {
    b.IsPlaying() && b.JustStarted()
  }

  /** A batch that is playing and just started loses JustStarted; its handle, if any, takes the state and is queued for Started. */
  function BatchStartStep(r: BatchStart, i: int): (q: BatchStart)
    requires r.data.Fits() && 0 <= i < |r.data.batches|
    ensures q.data.Fits() && q.data.slots == r.data.slots && q.data.handles == r.data.handles
    ensures q.data.batchLifetimes == r.data.batchLifetimes && SameSpans(q.data.batches, r.data.batches)
    ensures q.data.handleStates.Keys == r.data.handleStates.Keys
  {
    var f := r.data;
    var b := f.batches[i];
    if BatchStartsNow(b) then
      var b2 := b.(state := b.state - {StateFlag.JustStarted});
      var batches := f.batches[i := b2];
      TiledSameSpans(f.batches, batches, |f.slots.transforms|);
      var h := f.handles[i];
      if h != null then BatchStart(f.(batches := batches, handleStates := f.handleStates[h := b2.state]), r.started + [h])
      else BatchStart(f.(batches := batches), r.started)
    else r
  }

  /** The capture over batches 0 .. n-1, in batch order; slot states are left as they are. */
  function BatchStartPass(f: BatchData, n: int): (r: BatchStart)
    requires f.Fits() && 0 <= n <= |f.batches|
    ensures r.data.Fits() && r.data.slots == f.slots && r.data.handles == f.handles
    ensures r.data.batchLifetimes == f.batchLifetimes && SameSpans(r.data.batches, f.batches)
    ensures r.data.handleStates.Keys == f.handleStates.Keys
    decreases n
  {
    if n == 0 then BatchStart(f, [])
    else BatchStartStep(BatchStartPass(f, n - 1), n - 1)
  }

  /** After the capture over batches 0 .. n-1 exactly the starting batches among them have lost JustStarted. */
  lemma {:induction false} BatchStartPassBatches(f: BatchData, n: int)
    requires f.Fits() && 0 <= n <= |f.batches|
    ensures forall k | 0 <= k < |f.batches| ::
      BatchStartPass(f, n).data.batches[k]
        == (if k < n && BatchStartsNow(f.batches[k])
            then f.batches[k].(state := f.batches[k].state - {StateFlag.JustStarted})
            else f.batches[k])
    decreases n
  {
    if n > 0 {
      BatchStartPassBatches(f, n - 1);
      var p := BatchStartPass(f, n - 1);
      assert BatchStartPass(f, n) == BatchStartStep(p, n - 1);
      assert p.data.batches[n - 1] == f.batches[n - 1];
    }
  }

  /** The handles queued for Started by the capture over batches 0 .. n-1 are those of the starting batches. */
  lemma {:induction false} BatchStartPassStarted(f: BatchData, n: int)
    requires f.Fits() && 0 <= n <= |f.batches|
    ensures forall h :: h in BatchStartPass(f, n).started <==>
      exists k :: 0 <= k < n && f.handles[k] == h && BatchStartsNow(f.batches[k])
    ensures |BatchStartPass(f, n).started| <= n
    decreases n
  {
    if n > 0 {
      BatchStartPassStarted(f, n - 1);
      BatchStartPassBatches(f, n - 1);
      var p := BatchStartPass(f, n - 1);
      assert BatchStartPass(f, n) == BatchStartStep(p, n - 1);
      assert p.data.batches[n - 1] == f.batches[n - 1];
    }
  }

  /**
   * UpdateTweens on `f` with command queue `q`: nothing at all while there are
   * no slots (even if empty batches wait); otherwise the drain, then the start
   * capture over every batch. None where the drain throws.
   */
  function BatchUpdateOutcome(f: BatchData, q: seq<TweenHandleAction>): (r: Option<BatchStart>)
    requires f.Fits()
    ensures |f.slots.transforms| == 0 ==> r == Some(BatchStart(f, []))
    ensures |f.slots.transforms| > 0 ==> (r.Some? <==> forall k | 0 <= k < |q| :: Drainable(f.handles, q[k]))
    ensures r.Some? ==> (r.value.data.Fits() && r.value.data.handles == f.handles
      && r.value.data.handleStates.Keys == f.handleStates.Keys)
  {
    if |f.slots.transforms| == 0 then Some(BatchStart(f, []))
    else
      BatchDrainSucceedsIff(f, q);
      match BatchDrainFrom(f, q)
      case None => None
      case Some(g) => Some(BatchStartPass(g, |g.batches|))
  }

  /**
   * With slots to tween, UpdateTweens keeps consistent batches consistent and
   * leaves no batch playing and just started.
   */
  lemma BatchUpdateSettlesStarts(f: BatchData, q: seq<TweenHandleAction>)
    requires f.Fits() && BatchesConsistent(f.batches) && AllConsistent(f.slots.states) && |f.slots.transforms| > 0
    ensures var r := BatchUpdateOutcome(f, q);
      r.Some? ==> BatchesConsistent(r.value.data.batches) && AllConsistent(r.value.data.slots.states)
                  && forall k | 0 <= k < |r.value.data.batches| :: !BatchStartsNow(r.value.data.batches[k])
  {
    BatchDrainKeepsConsistent(f, q);
    match BatchDrainFrom(f, q)
    case None =>
    case Some(g) =>
      BatchStartPassBatches(g, |g.batches|);
  }

  // ----- batch job -----

  /**
   * The newer revision's batch job, which is not part of this model's
   * sources, as a parameter: from one batch, its clock and the frame's delta
   * time to the batch's new state flags and clock. It cannot move a batch.
   */
  type BatchJob = (TweenTransformBatchState, TweenLifetime, real) -> (set<StateFlag>, TweenLifetime)

  /** The job's native copies of the batch list and the batch clock list. */
  datatype JobCopy = JobCopy(batches: seq<TweenTransformBatchState>, batchLifetimes: seq<TweenLifetime>)

  /**
   * UpdateTweens copies every batch and clock into native arrays and the job
   * runs over every index: each copied batch keeps its span and takes the
   * job's flags, each copied clock is the job's.
   */
  function RunBatchJob(b: seq<TweenTransformBatchState>, lts: seq<TweenLifetime>, dt: real, job: BatchJob): (c: JobCopy)
    requires |lts| == |b|
    ensures SameSpans(b, c.batches) && |c.batchLifetimes| == |b|
    ensures forall k | 0 <= k < |b| :: (c.batches[k].state, c.batchLifetimes[k]) == job(b[k], lts[k], dt)
  {
    JobCopy(seq(|b|, k requires 0 <= k < |b| => b[k].(state := job(b[k], lts[k], dt).0)),
      seq(|b|, k requires 0 <= k < |b| => job(b[k], lts[k], dt).1))
  }

  /**
   * The copies still line up with the batch list: one clock per copied
   * batch, no more copies than batches, and each copy over the span of the
   * batch it stands for.
   */
  predicate CopyFits(c: JobCopy, b: seq<TweenTransformBatchState>)
  {
    |c.batchLifetimes| == |c.batches| <= |b| && SameSpans(c.batches, b[..|c.batches|])
  }

  /**
   * LateUpdateTweens copies the native arrays back over the start of the
   * batch and clock lists: the first `|c.batches|` entries take the job's
   * values, batches added since the job was scheduled keep theirs, and
   * nothing else changes.
   */
  function WriteBackBatches(f: BatchData, c: JobCopy): (g: BatchData)
    requires f.Fits() && CopyFits(c, f.batches)
    ensures g.Fits() && SameSpans(f.batches, g.batches)
    ensures g.handles == f.handles && g.slots == f.slots && g.handleStates == f.handleStates
    ensures forall k | 0 <= k < |f.batches| ::
      if k < |c.batches| then g.batches[k] == c.batches[k] && g.batchLifetimes[k] == c.batchLifetimes[k]
      else g.batches[k] == f.batches[k] && g.batchLifetimes[k] == f.batchLifetimes[k]
  {
    var n := |c.batches|;
    var g := f.(batches := c.batches + f.batches[n..], batchLifetimes := c.batchLifetimes + f.batchLifetimes[n..]);
    assert SameSpans(f.batches, g.batches) by {
      forall k | 0 <= k < |f.batches|
        ensures g.batches[k].startIndex == f.batches[k].startIndex && g.batches[k].length == f.batches[k].length
      {
        if k < n {
          assert f.batches[..n][k] == f.batches[k];
        }
      }
    }
    TiledSameSpans(f.batches, g.batches, |f.slots.transforms|);
    g
  }

  /** A batch appended after the job was scheduled leaves the copies lined up. */
  lemma CopyFitsAfterAppend(c: JobCopy, b: seq<TweenTransformBatchState>, x: TweenTransformBatchState)
    requires CopyFits(c, b)
    ensures CopyFits(c, b + [x])
  {
    assert (b + [x])[..|c.batches|] == b[..|c.batches|];
  }

  /** Writing back copies nobody changed leaves the data as it was. */
  lemma WriteBackUnchangedCopy(f: BatchData, n: nat)
    requires f.Fits() && n <= |f.batches|
    ensures CopyFits(JobCopy(f.batches[..n], f.batchLifetimes[..n]), f.batches)
    ensures WriteBackBatches(f, JobCopy(f.batches[..n], f.batchLifetimes[..n])) == f
  {
    assert f.batches[..n] + f.batches[n..] == f.batches;
    assert f.batchLifetimes[..n] + f.batchLifetimes[n..] == f.batchLifetimes;
  }

  /**
   * The frame's round trip: after the job ran over every batch and more
   * batches were appended, the write-back gives every old batch its own span
   * with the job's flags and clock, and leaves the appended ones as they are.
   */
  lemma WriteBackOfJob(f: BatchData, extra: seq<TweenTransformBatchState>, extraLifetimes: seq<TweenLifetime>,
                       dt: real, job: BatchJob, g: BatchData)
    requires f.Fits() && g.Fits() && g.batches == f.batches + extra
    requires g.batchLifetimes == f.batchLifetimes + extraLifetimes
    ensures CopyFits(RunBatchJob(f.batches, f.batchLifetimes, dt, job), g.batches)
    ensures var w := WriteBackBatches(g, RunBatchJob(f.batches, f.batchLifetimes, dt, job));
      w.batches[|f.batches|..] == extra && w.batchLifetimes[|f.batches|..] == extraLifetimes
      && forall k | 0 <= k < |f.batches| ::
        w.batches[k].startIndex == f.batches[k].startIndex && w.batches[k].length == f.batches[k].length
        && (w.batches[k].state, w.batchLifetimes[k]) == job(f.batches[k], f.batchLifetimes[k], dt)
  {
    var c := RunBatchJob(f.batches, f.batchLifetimes, dt, job);
    assert g.batches[..|c.batches|] == f.batches;
    var w := WriteBackBatches(g, c);
    assert w.batches[|f.batches|..] == extra;
    assert w.batchLifetimes[|f.batches|..] == extraLifetimes;
  }

  // ----- late pass -----

  datatype BatchLate = BatchLate(data: BatchData, ended: seq<TweenHandle>)

  predicate BatchEndsNow(b: TweenTransformBatchState)
  {
    b.IsCompleted() && b.JustEnded()
  }

  predicate Recyclable(b: TweenTransformBatchState)
  {
    b.IsCompleted() && b.RequiresRecycling()
  }

  /** What the late pass leaves in a batch: a completed batch loses JustEnded. */
  function BatchLateState(b: TweenTransformBatchState): TweenTransformBatchState
  {
    if BatchEndsNow(b) then b.(state := b.state - {StateFlag.JustEnded}) else b
  }

  /** Batch `i` removed with its clock, its handle entry and its slots; every later batch moves down. */
  function RemoveBatchData(f: BatchData, i: int): (g: BatchData)
    requires f.Fits() && 0 <= i < |f.batches|
    ensures g.Fits() && g.handleStates == f.handleStates && |g.batches| == |f.batches| - 1
  {
    TiledBatchEnd(f.batches, |f.slots.transforms|, i);
    TiledRemove(f.batches, |f.slots.transforms|, i);
    var b := f.batches[i];
    BatchData(RemoveBatch(f.batches, i), RemoveAtSeq(f.batchLifetimes, i), RemoveAtSeq(f.handles, i),
              f.slots.RemoveRange(b.startIndex, b.length), f.handleStates)
  }

  /** RemoveBatchData field by field. */
  lemma RemoveBatchDataParts(f: BatchData, i: int)
    requires f.Fits() && 0 <= i < |f.batches|
    requires f.batches[i].startIndex + f.batches[i].length <= |f.slots.transforms|
    ensures var b := f.batches[i];
      RemoveBatchData(f, i) == BatchData(RemoveBatch(f.batches, i), RemoveAtSeq(f.batchLifetimes, i),
        RemoveAtSeq(f.handles, i), f.slots.RemoveRange(b.startIndex, b.length), f.handleStates)
  {
  }

  /**
   * The first half of batch `i`'s late step: its handle takes the batch's
   * state, and a completed batch that just ended loses JustEnded and queues
   * its handle for Completed.
   */
  function BatchLateMark(r: BatchLate, i: int): (q: BatchLate)
    requires r.data.Fits() && 0 <= i < |r.data.batches|
    ensures q.data.Fits() && q.data.handleStates.Keys == r.data.handleStates.Keys
    ensures q.data.slots == r.data.slots && q.data.handles == r.data.handles
    ensures q.data.batchLifetimes == r.data.batchLifetimes && |q.data.batches| == |r.data.batches|
  {
    var f := r.data;
    var b := f.batches[i];
    var h := f.handles[i];
    var b2 := BatchLateState(b);
    var hs := if h != null then f.handleStates[h := b2.state] else f.handleStates;
    TiledSameSpans(f.batches, f.batches[i := b2], |f.slots.transforms|);
    BatchLate(f.(batches := f.batches[i := b2], handleStates := hs),
              r.ended + (if BatchEndsNow(b) && h != null then [h] else []))
  }

  /**
   * Batch `i` of the late pass: BatchLateMark, then a completed batch
   * awaiting recycling is removed with its clock, its handle entry and its
   * slots, and every later batch moves down.
   */
  function BatchLateStep(r: BatchLate, i: int): (q: BatchLate)
    requires r.data.Fits() && 0 <= i < |r.data.batches|
    ensures q.data.Fits() && q.data.handleStates.Keys == r.data.handleStates.Keys
    ensures |q.data.batches| == |r.data.batches| - (if Recyclable(r.data.batches[i]) then 1 else 0)
  {
    var m := BatchLateMark(r, i);
    if Recyclable(m.data.batches[i]) then BatchLate(RemoveBatchData(m.data, i), m.ended) else m
  }

  /** The late pass over batches k-1 down to 0. */
  function BatchLatePass(r: BatchLate, k: int): (q: BatchLate)
    requires r.data.Fits() && 0 <= k <= |r.data.batches|
    ensures q.data.Fits() && q.data.handleStates.Keys == r.data.handleStates.Keys
    decreases k
  {
    if k == 0 then r else BatchLatePass(BatchLateStep(r, k - 1), k - 1)
  }

  /** LateUpdateTweens' pass over every batch, from the last down. */
  function BatchLateOutcome(f: BatchData): (q: BatchLate)
    requires f.Fits()
    ensures q.data.Fits() && q.data.handleStates.Keys == f.handleStates.Keys
  {
    BatchLatePass(BatchLate(f, []), |f.batches|)
  }

  /** A batch the late pass is done with: neither awaiting recycling nor just ended. */
  predicate Settled(b: TweenTransformBatchState)
  {
    !Recyclable(b) && !BatchEndsNow(b)
  }

  lemma BatchLateStepSettles(r: BatchLate, k: int)
    requires r.data.Fits() && 0 < k <= |r.data.batches|
    requires forall j | k <= j < |r.data.batches| :: Settled(r.data.batches[j])
    ensures var q := BatchLateStep(r, k - 1);
      k - 1 <= |q.data.batches| && forall j | k - 1 <= j < |q.data.batches| :: Settled(q.data.batches[j])
  {
    var b := r.data.batches[k - 1];
    if Recyclable(BatchLateState(b)) {
      var m := BatchLateMark(r, k - 1).data.batches;
      var c := RemoveBatch(m, k - 1);
      forall j | k - 1 <= j < |c| ensures Settled(c[j]) {
        assert c[j].state == m[j + 1].state == r.data.batches[j + 1].state;
      }
    }
  }

  /**
   * After the late pass over batches k-1 .. 0, given those above k-1 are
   * settled, every remaining batch is settled: each recyclable batch has been
   * removed and each ending batch has had its end reported.
   */
  lemma {:induction false} BatchLatePassSettles(r: BatchLate, k: int)
    requires r.data.Fits() && 0 <= k <= |r.data.batches|
    requires forall j | k <= j < |r.data.batches| :: Settled(r.data.batches[j])
    ensures forall j | 0 <= j < |BatchLatePass(r, k).data.batches| :: Settled(BatchLatePass(r, k).data.batches[j])
    decreases k
  {
    if k > 0 {
      BatchLateStepSettles(r, k);
      var r1 := BatchLateStep(r, k - 1);
      BatchLatePassSettles(r1, k - 1);
      assert BatchLatePass(r, k) == BatchLatePass(r1, k - 1);
    }
  }

  /** After LateUpdateTweens no batch awaits recycling and none is left just ended. */
  lemma BatchLateOutcomeSettles(f: BatchData)
    requires f.Fits()
    ensures forall j | 0 <= j < |BatchLateOutcome(f).data.batches| :: Settled(BatchLateOutcome(f).data.batches[j])
  {
    BatchLatePassSettles(BatchLate(f, []), |f.batches|);
  }

  /** Only handles listed at the start of the pass are queued for Completed. */
  lemma {:induction false} BatchLatePassEndsListedHandles(r: BatchLate, k: int)
    requires r.data.Fits() && 0 <= k <= |r.data.batches|
    ensures forall h | h in BatchLatePass(r, k).ended :: h in r.ended || h in r.data.handles
    decreases k
  {
    if k > 0 {
      var r1 := BatchLateStep(r, k - 1);
      assert forall h | h in r1.data.handles :: h in r.data.handles;
      BatchLatePassEndsListedHandles(r1, k - 1);
    }
  }

  /**
   * Recycling batch `i` keeps every other batch's slots: what slot `t` of
   * batch `j` held, slot `t` of that batch holds at its new position.
   */
  lemma RemoveBatchKeepsOtherSlots<T>(b: seq<TweenTransformBatchState>, s: seq<T>, i: int, j: int, t: int)
    requires Tiled(b, |s|) && 0 <= i < |b| && 0 <= j < |b| && j != i && 0 <= t < b[j].length
    ensures var c := RemoveBatch(b, i);
      var j' := if j < i then j else j - 1;
      b[i].startIndex + b[i].length <= |s| && c[j'].startIndex + t < |s| - b[i].length
      && RemoveRangeSeq(s, b[i].startIndex, b[i].length)[c[j'].startIndex + t] == s[b[j].startIndex + t]
  {
    TiledBatchEnd(b, |s|, i);
    TiledBatchEnd(b, |s|, j);
    if j < i {
      TiledBatchesDisjoint(b, |s|, j, i);
    } else {
      TiledBatchesDisjoint(b, |s|, i, j);
    }
  }
}
