// The data of the older BatchTransformTweener and its compaction pass, as
// values. Batches are TweenBatch records (a span and a completion flag); the
// slot lists hold the older per-slot records. Compaction visits the batches
// from last to first and removes every completed batch together with its slot
// range, lowering the start index of each later batch by the removed length.
// The main result: compaction leaves exactly the slots and clocks of the
// batches that had not completed, in their original order.

module LegacyCompaction {
  import opened TweenTypes
  import opened TweenValues
  import opened Lifetime
  import opened TransformState
  import opened FastLists
  import opened BatchState
  import opened BatchPasses
  import opened Jobs

  // ----- spans and tiling -----

  /** The spans of the batches, as batch records with no state, so that the tiling facts apply. */
  function Spans(b: seq<TweenBatch>): (r: seq<TweenTransformBatchState>)
    ensures |r| == |b|
    ensures forall k | 0 <= k < |b| :: r[k].startIndex == b[k].startIndex && r[k].length == b[k].length
  {
    seq(|b|, k requires 0 <= k < |b| => TweenTransformBatchState(b[k].startIndex, b[k].length, {}))
  }

  /** `startIndex -= d` on every batch, as the uint subtraction it is. */
  function LegacyShiftDown(b: seq<TweenBatch>, d: uint32): (r: seq<TweenBatch>)
    ensures |r| == |b|
  {
    seq(|b|, k requires 0 <= k < |b| => b[k].(startIndex := UintSub(b[k].startIndex, d)))
  }

  /** The batch list after batch `i` is removed: every later batch moves down by its length. */
  function LegacyRemoveBatch(b: seq<TweenBatch>, i: int): (r: seq<TweenBatch>)
    requires 0 <= i < |b|
    ensures |r| == |b| - 1 && r[..i] == b[..i]
    ensures Spans(r) == RemoveBatch(Spans(b), i)
  {
    var r := b[..i] + LegacyShiftDown(b[i + 1..], b[i].length);
    assert Spans(r) == RemoveBatch(Spans(b), i);
    r
  }

  /** The batches are in `startIndex` order, as the comparer of the sort orders them. */
  predicate SortedByStart(b: seq<TweenBatch>)
  {
    forall k | 0 < k < |b| :: b[k - 1].startIndex <= b[k].startIndex
  }

  /** Tiled batches are already in `startIndex` order. */
  lemma TiledIsSorted(b: seq<TweenBatch>, n: int)
    requires Tiled(Spans(b), n)
    ensures SortedByStart(b)
  {
    forall k | 0 < k < |b|
      ensures b[k - 1].startIndex <= b[k].startIndex
    {
      TiledBatchesDisjoint(Spans(b), n, k - 1, k);
    }
  }

  /** Appending a batch at the end of the slots keeps the tiling. */
  lemma LegacyTiledAppend(b: seq<TweenBatch>, n: int, x: TweenBatch)
    requires Tiled(Spans(b), n) && x.startIndex == n
    ensures Tiled(Spans(b + [x]), n + x.length)
  {
    TiledAppend(Spans(b), n, TweenTransformBatchState(x.startIndex, x.length, {}));
    assert Spans(b + [x]) == Spans(b) + [TweenTransformBatchState(x.startIndex, x.length, {})];
  }

  // ----- the data -----

  /** The eight parallel slot lists of the older tweener. */
  datatype LegacySlots = LegacySlots(
    transforms: seq<Transform>,
    states: seq<LegacyTransformState>,
    positions: seq<TweenPosition>,
    rotations: seq<TweenRotation>,
    scales: seq<TweenScale>,
    positionLifetimes: seq<TweenLifetime>,
    rotationLifetimes: seq<TweenLifetime>,
    scaleLifetimes: seq<TweenLifetime>)
  {
    /** One entry per slot in every list. */
    predicate Aligned()
    {
      |states| == |transforms| && |positions| == |transforms| && |rotations| == |transforms|
      && |scales| == |transforms| && |positionLifetimes| == |transforms|
      && |rotationLifetimes| == |transforms| && |scaleLifetimes| == |transforms|
    }

    /** RemoveRange(start, length) on every list. */
    function RemoveRange(start: int, length: int): (r: LegacySlots)
      requires Aligned() && 0 <= start && 0 <= length && start + length <= |transforms|
      ensures r.Aligned() && |r.transforms| == |transforms| - length
    {
      LegacySlots(RemoveRangeSeq(transforms, start, length), RemoveRangeSeq(states, start, length),
        RemoveRangeSeq(positions, start, length), RemoveRangeSeq(rotations, start, length),
        RemoveRangeSeq(scales, start, length), RemoveRangeSeq(positionLifetimes, start, length),
        RemoveRangeSeq(rotationLifetimes, start, length), RemoveRangeSeq(scaleLifetimes, start, length))
    }

    /** Slot `j`'s state and clocks: what the tween job reads and writes back. */
    function Clocks(j: int): SlotClocks
      requires Aligned() && 0 <= j < |transforms|
    {
      SlotClocks(states[j], positionLifetimes[j], rotationLifetimes[j], scaleLifetimes[j])
    }
  }

  /** Every clock in `lts` can report its progress. */
  predicate ClocksDefined(lts: seq<TweenLifetime>)
  {
    forall lt | lt in lts :: lt.ProgressDefined()
  }

  /** The batches with their clocks and the slot lists. */
  datatype LegacyData = LegacyData(batches: seq<TweenBatch>, batchLifetimes: seq<TweenLifetime>, slots: LegacySlots)
  {
    /** One clock per batch, aligned slot lists, and the batches tile the slots. */
    predicate Fits()
    {
      |batchLifetimes| == |batches| && slots.Aligned() && Tiled(Spans(batches), |slots.transforms|)
    }
  }

  // ----- compaction -----

  /** Batch `i` and its slot range removed, and every later batch moved down. */
  function RemoveCompleted(d: LegacyData, i: int): (r: LegacyData)
    requires d.Fits() && 0 <= i < |d.batches|
    ensures r.Fits() && |r.batches| == |d.batches| - 1 && r.batches[..i] == d.batches[..i]
  {
    var b := d.batches[i];
    TiledBatchEnd(Spans(d.batches), |d.slots.transforms|, i);
    TiledRemove(Spans(d.batches), |d.slots.transforms|, i);
    LegacyData(LegacyRemoveBatch(d.batches, i), RemoveAtSeq(d.batchLifetimes, i),
      d.slots.RemoveRange(b.startIndex, b.length))
  }

  /** One iteration of the compaction loop, at batch `i`. */
  function CompactStep(d: LegacyData, i: int): (r: LegacyData)
    requires d.Fits() && 0 <= i < |d.batches|
    ensures |r.batches| == |d.batches| - (if d.batches[i].isCompleted then 1 else 0)
    ensures r.Fits() && r.batches[..i] == d.batches[..i]
  {
    if d.batches[i].isCompleted then RemoveCompleted(d, i) else d
  }

  /** The compaction loop over batches `k`-1 down to 0. */
  function Compacted(d: LegacyData, k: int): (r: LegacyData)
    requires d.Fits() && 0 <= k <= |d.batches|
    ensures r.Fits()
    decreases k
  {
    if k == 0 then d
    else
      var e := CompactStep(d, k - 1);
      assert |e.batches| >= k - 1;
      Compacted(e, k - 1)
  }

  /** The whole compaction pass. */
  function Compaction(d: LegacyData): (r: LegacyData)
    requires d.Fits()
    ensures r.Fits()
  {
    Compacted(d, |d.batches|)
  }

  // ----- what compaction keeps -----

  /** The number of slots the batches cover. */
  function Total(b: seq<TweenBatch>): nat
  {
    if |b| == 0 then 0 else b[0].length + Total(b[1..])
  }

  /**
   * The slots of the batches that have not completed, in order, reading `s`
   * as the batches' slot runs laid end to end.
   */
  function Kept<T>(b: seq<TweenBatch>, s: seq<T>): seq<T>
    requires Total(b) <= |s|
  {
    if |b| == 0 then []
    else (if b[0].isCompleted then [] else s[..b[0].length]) + Kept(b[1..], s[b[0].length..])
  }

  /** The entries of a per-batch list that belong to batches that have not completed. */
  function KeptEntries<T>(b: seq<TweenBatch>, l: seq<T>): (r: seq<T>)
    requires |l| == |b|
    ensures |r| <= |l|
  {
    if |b| == 0 then []
    else (if b[0].isCompleted then [] else [l[0]]) + KeptEntries(b[1..], l[1..])
  }

  /** Every slot list restricted to the slots of batches that have not completed. */
  function KeptSlots(b: seq<TweenBatch>, s: LegacySlots): LegacySlots
    requires s.Aligned() && Total(b) <= |s.transforms|
  {
    LegacySlots(Kept(b, s.transforms), Kept(b, s.states), Kept(b, s.positions), Kept(b, s.rotations),
      Kept(b, s.scales), Kept(b, s.positionLifetimes), Kept(b, s.rotationLifetimes), Kept(b, s.scaleLifetimes))
  }

  /** Same lengths and completion flags, batch by batch: start indices may differ. */
  predicate SameRuns(x: seq<TweenBatch>, y: seq<TweenBatch>)
  {
    |x| == |y| && forall k | 0 <= k < |x| :: x[k].length == y[k].length && x[k].isCompleted == y[k].isCompleted
  }

  lemma {:induction false} SameRunsAgree<T>(x: seq<TweenBatch>, y: seq<TweenBatch>, s: seq<T>)
    requires SameRuns(x, y)
    ensures Total(x) == Total(y)
    ensures Total(x) <= |s| ==> Kept(x, s) == Kept(y, s)
    ensures |s| == |x| ==> KeptEntries(x, s) == KeptEntries(y, s)
    decreases |x|
  {
    if |x| > 0 {
      assert SameRuns(x[1..], y[1..]);
      SameRunsAgree(x[1..], y[1..], s[..0]);
      if Total(x) <= |s| {
        SameRunsAgree(x[1..], y[1..], s[x[0].length..]);
      }
      if |s| == |x| {
        SameRunsAgree(x[1..], y[1..], s[1..]);
      }
    }
  }

  lemma {:induction false} TotalAppend(x: seq<TweenBatch>, y: seq<TweenBatch>)
    ensures Total(x + y) == Total(x) + Total(y)
    decreases |x|
  {
    if |x| > 0 {
      assert (x + y)[0] == x[0] && (x + y)[1..] == x[1..] + y;
      TotalAppend(x[1..], y);
    } else {
      assert x + y == y;
    }
  }

  /** Kept reads only the slots its batches cover. */
  lemma {:induction false} KeptPrefix<T>(b: seq<TweenBatch>, s: seq<T>, t: seq<T>)
    requires Total(b) <= |s| && Total(b) <= |t| && s[..Total(b)] == t[..Total(b)]
    ensures Kept(b, s) == Kept(b, t)
    decreases |b|
  {
    if |b| > 0 {
      var n := b[0].length;
      assert s[..n] == s[..Total(b)][..n];
      assert t[..n] == t[..Total(b)][..n];
      assert s[n..][..Total(b[1..])] == s[..Total(b)][n..];
      assert t[n..][..Total(b[1..])] == t[..Total(b)][n..];
      KeptPrefix(b[1..], s[n..], t[n..]);
    }
  }

  lemma {:induction false} KeptAppend<T>(x: seq<TweenBatch>, y: seq<TweenBatch>, s: seq<T>)
    requires Total(x) + Total(y) <= |s|
    ensures Total(x + y) == Total(x) + Total(y)
    ensures Kept(x + y, s) == Kept(x, s) + Kept(y, s[Total(x)..])
    decreases |x|
  {
    TotalAppend(x, y);
    if |x| == 0 {
      assert x + y == y && s[Total(x)..] == s;
    } else {
      KeptAppend(x[1..], y, s[x[0].length..]);
      TotalAppend(x[1..], y);
      KeptAppendStep(x, y, s);
    }
  }

  /** The inductive step of KeptAppend: the first batch of `x` contributes the same head on both sides. */
  lemma KeptAppendStep<T>(x: seq<TweenBatch>, y: seq<TweenBatch>, s: seq<T>)
    requires |x| > 0 && Total(x) + Total(y) <= |s|
    requires Total(x + y) == Total(x) + Total(y)
    requires Total(x[1..] + y) == Total(x[1..]) + Total(y)
    requires Kept(x[1..] + y, s[x[0].length..])
             == Kept(x[1..], s[x[0].length..]) + Kept(y, s[x[0].length..][Total(x[1..])..])
    ensures Kept(x + y, s) == Kept(x, s) + Kept(y, s[Total(x)..])
  {
    var n := x[0].length;
    var rest, tail := x[1..], s[n..];
    ConsAppend(x, y);
    DropDrop(s, n, Total(rest));
    var head := if x[0].isCompleted then [] else s[..n];
    ConcatAssoc(head, Kept(rest, tail), Kept(y, s[Total(x)..]));
  }

  lemma {:induction false} KeptEntriesAppend<T>(x: seq<TweenBatch>, y: seq<TweenBatch>, l: seq<T>, m: seq<T>)
    requires |l| == |x| && |m| == |y|
    ensures KeptEntries(x + y, l + m) == KeptEntries(x, l) + KeptEntries(y, m)
    decreases |x|
  {
    if |x| > 0 {
      assert (x + y)[1..] == x[1..] + y && (l + m)[1..] == l[1..] + m;
      KeptEntriesAppend(x[1..], y, l[1..], m);
    } else {
      assert x + y == y && l + m == m;
    }
  }

  /** Under tiling, batch `i` starts after the runs of the batches before it, and the runs cover every slot. */
  lemma {:induction false} TilesFromStart(b: seq<TweenBatch>, a: int, n: int, i: int)
    requires TilesFrom(Spans(b), a, n) && 0 <= i <= |b|
    ensures a + Total(b[..i]) == if i < |b| then b[i].startIndex else n
    decreases i
  {
    if i > 0 {
      assert Spans(b)[1..] == Spans(b[1..]);
      TilesFromStart(b[1..], a + b[0].length, n, i - 1);
      assert b[..i][1..] == b[1..][..i - 1];
    } else if |b| == 0 {
      assert b[..0] == [];
    }
  }

  lemma TiledTotal(b: seq<TweenBatch>, n: int)
    requires Tiled(Spans(b), n)
    ensures Total(b) == n
  {
    TilesFromStart(b, 0, n, |b|);
    assert b[..|b|] == b;
  }

  /** With no batch completed, Kept is every slot. */
  lemma {:induction false} KeptAllRunning<T>(b: seq<TweenBatch>, s: seq<T>)
    requires forall k | 0 <= k < |b| :: !b[k].isCompleted
    requires Total(b) == |s|
    ensures Kept(b, s) == s
    decreases |b|
  {
    if |b| > 0 {
      KeptAllRunning(b[1..], s[b[0].length..]);
      assert s == s[..b[0].length] + s[b[0].length..];
    }
  }

  /** With no batch completed, KeptEntries is every entry. */
  lemma {:induction false} KeptEntriesAllRunning<T>(b: seq<TweenBatch>, l: seq<T>)
    requires forall k | 0 <= k < |b| :: !b[k].isCompleted
    requires |l| == |b|
    ensures KeptEntries(b, l) == l
    decreases |b|
  {
    if |b| > 0 {
      KeptEntriesAllRunning(b[1..], l[1..]);
      assert l == [l[0]] + l[1..];
    }
  }

  /** Moving batches down keeps their lengths and completion flags. */
  lemma ShiftDownSameRuns(y: seq<TweenBatch>, d: uint32)
    ensures SameRuns(y, LegacyShiftDown(y, d))
  {
  }

  /** The batch list after a removal: the earlier batches, then the later ones moved down. */
  lemma RemoveBatchSplit(b: seq<TweenBatch>, i: int)
    requires 0 <= i < |b|
    ensures LegacyRemoveBatch(b, i) == b[..i] + LegacyShiftDown(b[i + 1..], b[i].length)
  {
  }

  /** A completed batch at the head keeps none of its own slots. */
  lemma KeptSkipsCompleted<T>(c: TweenBatch, y: seq<TweenBatch>, s: seq<T>)
    requires c.isCompleted && c.length + Total(y) <= |s|
    ensures Total([c] + y) == c.length + Total(y)
    ensures Kept([c] + y, s) == Kept(y, s[c.length..])
  {
    assert ([c] + y)[0] == c && ([c] + y)[1..] == y;
  }

  /** A completed batch at the head keeps none of its own entry. */
  lemma KeptEntriesSkipsCompleted<T>(c: TweenBatch, y: seq<TweenBatch>, e: T, m: seq<T>)
    requires c.isCompleted && |m| == |y|
    ensures KeptEntries([c] + y, [e] + m) == KeptEntries(y, m)
  {
    assert ([c] + y)[0] == c && ([c] + y)[1..] == y && ([e] + m)[1..] == m;
  }

  /** Removing a completed batch and its slot range changes none of the kept slots. */
  lemma {:induction false} KeptRemoveCompleted<T>(b: seq<TweenBatch>, s: seq<T>, i: int)
    requires Tiled(Spans(b), |s|) && 0 <= i < |b| && b[i].isCompleted
    ensures Total(b) == |s|
    ensures b[i].startIndex + b[i].length <= |s|
    ensures Total(LegacyRemoveBatch(b, i)) <= |s| - b[i].length
    ensures Kept(LegacyRemoveBatch(b, i), RemoveRangeSeq(s, b[i].startIndex, b[i].length)) == Kept(b, s)
  {
    var c := b[i];
    var x, y := b[..i], b[i + 1..];
    var start: int, len: int := c.startIndex, c.length;
    TilesFromStart(b, 0, |s|, i);
    TiledTotal(b, |s|);
    assert b == x + ([c] + y);
    TotalAppend(x, [c] + y);
    KeptSkipsCompleted(c, y, s[start..]);
    var z := LegacyShiftDown(y, c.length);
    ShiftDownSameRuns(y, c.length);
    var tail := s[start + len..];
    assert s[start..][len..] == tail;
    SameRunsAgree(y, z, tail);
    RemoveBatchSplit(b, i);
    TotalAppend(x, z);
    var t := RemoveRangeSeq(s, start, len);
    assert t == s[..start] + tail;
    KeptAppend(x, [c] + y, s);
    KeptAppend(x, z, t);
    assert t[start..] == tail;
    KeptPrefix(x, s, t);
  }

  /** Removing a completed batch and its clock changes none of the kept clocks. */
  lemma {:induction false} KeptEntriesRemoveCompleted<T>(b: seq<TweenBatch>, l: seq<T>, i: int)
    requires 0 <= i < |b| && |l| == |b| && b[i].isCompleted
    ensures KeptEntries(LegacyRemoveBatch(b, i), RemoveAtSeq(l, i)) == KeptEntries(b, l)
  {
    var c := b[i];
    var x, y := b[..i], b[i + 1..];
    var front, back := l[..i], l[i + 1..];
    var z := LegacyShiftDown(y, c.length);
    ShiftDownSameRuns(y, c.length);
    SameRunsAgree(y, z, back);
    assert b == x + ([c] + y) && l == front + ([l[i]] + back);
    KeptEntriesAppend(x, [c] + y, front, [l[i]] + back);
    KeptEntriesSkipsCompleted(c, y, l[i], back);
    RemoveBatchSplit(b, i);
    KeptEntriesAppend(x, z, front, back);
  }

  /** One compaction step keeps every kept slot and clock. */
  lemma CompactStepKeeps(d: LegacyData, i: int)
    requires d.Fits() && 0 <= i < |d.batches|
    ensures Total(d.batches) == |d.slots.transforms|
    ensures var r := CompactStep(d, i);
      Total(r.batches) == |r.slots.transforms|
      && KeptSlots(r.batches, r.slots) == KeptSlots(d.batches, d.slots)
      && KeptEntries(r.batches, r.batchLifetimes) == KeptEntries(d.batches, d.batchLifetimes)
  {
    TiledTotal(d.batches, |d.slots.transforms|);
    var r := CompactStep(d, i);
    TiledTotal(r.batches, |r.slots.transforms|);
    if d.batches[i].isCompleted {
      var s := d.slots;
      KeptRemoveCompleted(d.batches, s.transforms, i);
      KeptRemoveCompleted(d.batches, s.states, i);
      KeptRemoveCompleted(d.batches, s.positions, i);
      KeptRemoveCompleted(d.batches, s.rotations, i);
      KeptRemoveCompleted(d.batches, s.scales, i);
      KeptRemoveCompleted(d.batches, s.positionLifetimes, i);
      KeptRemoveCompleted(d.batches, s.rotationLifetimes, i);
      KeptRemoveCompleted(d.batches, s.scaleLifetimes, i);
      KeptEntriesRemoveCompleted(d.batches, d.batchLifetimes, i);
    }
  }

  /** The loop from batch `k`-1 down keeps every kept slot and clock, and leaves no completed batch behind. */
  lemma {:induction false} CompactedKeeps(d: LegacyData, k: int)
    requires d.Fits() && 0 <= k <= |d.batches|
    requires forall j | k <= j < |d.batches| :: !d.batches[j].isCompleted
    ensures Total(d.batches) == |d.slots.transforms|
    ensures var r := Compacted(d, k);
      Total(r.batches) == |r.slots.transforms|
      && (forall j | 0 <= j < |r.batches| :: !r.batches[j].isCompleted)
      && KeptSlots(r.batches, r.slots) == KeptSlots(d.batches, d.slots)
      && KeptEntries(r.batches, r.batchLifetimes) == KeptEntries(d.batches, d.batchLifetimes)
    decreases k
  {
    TiledTotal(d.batches, |d.slots.transforms|);
    var r := Compacted(d, k);
    TiledTotal(r.batches, |r.slots.transforms|);
    if k > 0 {
      var e := CompactStep(d, k - 1);
      CompactStepKeeps(d, k - 1);
      CompactStepKeepsTailRunning(d, k);
      CompactedKeeps(e, k - 1);
      assert r == Compacted(e, k - 1);
    }
  }

  /** After the step at batch `k`-1, no batch from `k`-1 on is completed, if none from `k` on was. */
  lemma CompactStepKeepsTailRunning(d: LegacyData, k: int)
    requires d.Fits() && 0 < k <= |d.batches|
    requires forall j | k <= j < |d.batches| :: !d.batches[j].isCompleted
    ensures var e := CompactStep(d, k - 1);
      k - 1 <= |e.batches| && forall j | k - 1 <= j < |e.batches| :: !e.batches[j].isCompleted
  {
    var e := CompactStep(d, k - 1);
    forall j | k - 1 <= j < |e.batches|
      ensures !e.batches[j].isCompleted
    {
      if d.batches[k - 1].isCompleted {
        assert e.batches[j] == d.batches[j + 1].(startIndex := e.batches[j].startIndex);
      }
    }
  }

  /**
   * Compaction removes every completed batch with its clock and slot range,
   * and keeps the slots and clocks of every other batch, in their order.
   */
  lemma CompactionKeepsRunning(d: LegacyData)
    requires d.Fits()
    ensures Total(d.batches) == |d.slots.transforms|
    ensures var r := Compaction(d);
      (forall j | 0 <= j < |r.batches| :: !r.batches[j].isCompleted)
      && r.slots == KeptSlots(d.batches, d.slots)
      && r.batchLifetimes == KeptEntries(d.batches, d.batchLifetimes)
  {
    TiledTotal(d.batches, |d.slots.transforms|);
    var r := Compaction(d);
    CompactedKeeps(d, |d.batches|);
    TiledTotal(r.batches, |r.slots.transforms|);
    var s := r.slots;
    KeptAllRunning(r.batches, s.transforms);
    KeptAllRunning(r.batches, s.states);
    KeptAllRunning(r.batches, s.positions);
    KeptAllRunning(r.batches, s.rotations);
    KeptAllRunning(r.batches, s.scales);
    KeptAllRunning(r.batches, s.positionLifetimes);
    KeptAllRunning(r.batches, s.rotationLifetimes);
    KeptAllRunning(r.batches, s.scaleLifetimes);
    KeptEntriesAllRunning(r.batches, r.batchLifetimes);
  }

  /** A pass over batches none of which has completed changes nothing. */
  lemma {:induction false} CompactionWithoutCompletedIsIdentity(d: LegacyData, k: int)
    requires d.Fits() && 0 <= k <= |d.batches|
    requires forall j | 0 <= j < k :: !d.batches[j].isCompleted
    ensures Compacted(d, k) == d
    decreases k
  {
    if k > 0 {
      CompactionWithoutCompletedIsIdentity(d, k - 1);
    }
  }
}
