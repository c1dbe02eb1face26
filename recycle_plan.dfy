// The single-transform tweener's recycle pass, as written: the slots marked
// for recycling are visited from the highest index down, grouped into runs of
// consecutive indices, and each finished run is removed from every slot list
// with one RemoveRange. The plan of removals is computed here; applying it is
// RemoveRange on each list in plan order.

module RecyclePlans {
  import opened FastLists

  /** DEFAULT_RECYCLE_AMOUNT_PER_FRAME: the longest run removed at once. */
  const RecycleAmountPerFrame: int := 500

  /** One RemoveRange(start, length) applied to every slot list. */
  datatype Removal = Removal(start: int, length: int)

  function IntMax(a: int, b: int): int { if a >= b then a else b }
  function IntMin(a: int, b: int): int { if a <= b then a else b }

  /**
   * The removals the pass performs while visiting `v` (the marked indices,
   * highest first) with a run ending at `removeEnd` of `removeLength` slots
   * open, or no run when `removeEnd` is -1.
   *
   * A visited index adjacent the open run only when it is exactly one below
   * it; the run is then removed only if that index is the last one visited.
   * Any other index closes the run, which is removed, and is itself dropped
   * for this frame. The removed range starts at max(0, end - length).
   */
  function PlanFrom(v: seq<int>, removeEnd: int, removeLength: int): seq<Removal>
    decreases |v|
  {
    if |v| == 0 then []
    else if removeEnd == -1 then PlanFrom(v[1..], v[0], 1)
    else
      var adjacent := v[0] == removeEnd - removeLength;
      var length := if adjacent then IntMin(removeLength + 1, RecycleAmountPerFrame) else removeLength;
      var doRemove := if adjacent then |v| == 1 else true;
      if doRemove then [Removal(IntMax(0, removeEnd - length), length)] + PlanFrom(v[1..], -1, 0)
      else PlanFrom(v[1..], removeEnd, length)
  }

  /** The removals for the marked indices `v`, visited highest first. */
  function RecyclePlan(v: seq<int>): seq<Removal>
  {
    PlanFrom(v, -1, 0)
  }

  predicate StrictlyDescending(v: seq<int>)
  {
    forall i, j | 0 <= i < j < |v| :: v[i] > v[j]
  }

  /** Each removal lies below `bound` and every later removal lies below its start. */
  predicate PlanFits(plan: seq<Removal>, bound: int)
    decreases |plan|
  {
    |plan| == 0 ||
    (0 <= plan[0].start && 0 <= plan[0].length && plan[0].start + plan[0].length <= bound
     && PlanFits(plan[1..], plan[0].start))
  }

  lemma PlanFitsWeakens(plan: seq<Removal>, a: int, b: int)
    requires PlanFits(plan, a) && a <= b
    ensures PlanFits(plan, b)
  {
  }

  /** The slot list after applying every removal of `plan` in order. */
  function ApplyRemovals<T>(s: seq<T>, plan: seq<Removal>): (r: seq<T>)
    requires PlanFits(plan, |s|)
    ensures |r| == |s| - TotalLength(plan)
    decreases |plan|
  {
    if |plan| == 0 then s
    else
      var next := RemoveRangeSeq(s, plan[0].start, plan[0].length);
      PlanFitsWeakens(plan[1..], plan[0].start, |next|);
      ApplyRemovals(next, plan[1..])
  }

  function TotalLength(plan: seq<Removal>): int
  {
    if |plan| == 0 then 0 else plan[0].length + TotalLength(plan[1..])
  }

  /**
   * Over marked indices that are distinct, non-negative, below `bound` and
   * visited highest first, every planned RemoveRange stays inside the list
   * it is applied to.
   */
  lemma {:induction false} PlanFromFits(v: seq<int>, removeEnd: int, removeLength: int, bound: int)
    requires StrictlyDescending(v) && forall x | x in v :: 0 <= x
    requires removeEnd == -1 ==> forall x | x in v :: x < bound
    requires removeEnd != -1 ==>
      0 <= removeEnd < bound && 1 <= removeLength <= removeEnd + 1 && removeLength <= RecycleAmountPerFrame
      && forall x | x in v :: x <= removeEnd - removeLength
    ensures PlanFits(PlanFrom(v, removeEnd, removeLength), bound)
    decreases |v|
  {
    if |v| == 0 {
      return;
    }
    assert v[0] in v;
    assert forall x | x in v[1..] :: x in v;
    assert forall x | x in v[1..] :: x < v[0] by {
      forall x | x in v[1..] ensures x < v[0] {
        var k :| 0 <= k < |v[1..]| && v[1..][k] == x;
        assert v[k + 1] == x;
      }
    }
    assert StrictlyDescending(v[1..]) by {
      forall i, j | 0 <= i < j < |v[1..]| ensures v[1..][i] > v[1..][j] {
        assert v[1..][i] == v[i + 1] && v[1..][j] == v[j + 1];
      }
    }
    if removeEnd == -1 {
      PlanFromFits(v[1..], v[0], 1, bound);
    } else {
      var adjacent := v[0] == removeEnd - removeLength;
      var length := if adjacent then IntMin(removeLength + 1, RecycleAmountPerFrame) else removeLength;
      var doRemove := if adjacent then |v| == 1 else true;
      var start := IntMax(0, removeEnd - length);
      if doRemove {
        PlanFromFits(v[1..], -1, 0, start);
        var plan := PlanFrom(v, removeEnd, removeLength);
        assert plan == [Removal(start, length)] + PlanFrom(v[1..], -1, 0);
        assert plan[1..] == PlanFrom(v[1..], -1, 0);
      } else {
        PlanFromFits(v[1..], removeEnd, length, bound);
      }
    }
  }

  /** The plan for the marked indices of a list of `n` slots can be applied to it. */
  lemma RecyclePlanFits(v: seq<int>, n: int)
    requires StrictlyDescending(v) && forall x | x in v :: 0 <= x < n
    ensures PlanFits(RecyclePlan(v), n)
  {
    PlanFromFits(v, -1, 0, n);
  }

  /** A slot list after the recycle pass over the marked slots `marked`, visited highest first. */
  function Recycled<T>(s: seq<T>, marked: seq<int>): (r: seq<T>)
    requires StrictlyDescending(marked) && forall x | x in marked :: 0 <= x < |s|
    ensures |r| == |s| - TotalLength(RecyclePlan(marked))
  {
    RecyclePlanFits(marked, |s|);
    ApplyRemovals(s, RecyclePlan(marked))
  }

  /**
   * The marked slots the pass visits in one frame: the first
   * RecycleAmountPerFrame + 1 of them, highest first.
   */
  function RecycleWindow(marked: seq<int>): (r: seq<int>)
    ensures |r| == if |marked| <= RecycleAmountPerFrame + 1 then |marked| else RecycleAmountPerFrame + 1
    ensures forall k | 0 <= k < |r| :: r[k] == marked[k]
    ensures StrictlyDescending(marked) ==> StrictlyDescending(r)
    ensures forall x | x in r :: x in marked
  {
    marked[..|marked| - IntMax(|marked| - 1 - RecycleAmountPerFrame, 0)]
  }

  /** The recycle pass only removes: the lists afterwards hold a sub-multiset of their entries. */
  lemma {:induction false} ApplyRemovalsSubMultiset<T>(s: seq<T>, plan: seq<Removal>)
    requires PlanFits(plan, |s|)
    ensures multiset(ApplyRemovals(s, plan)) <= multiset(s)
    decreases |plan|
  {
    if |plan| > 0 {
      var i, n := plan[0].start, plan[0].length;
      var next := RemoveRangeSeq(s, i, n);
      assert s == s[..i] + s[i..i + n] + s[i + n..];
      assert multiset(next) <= multiset(s);
      PlanFitsWeakens(plan[1..], i, |next|);
      ApplyRemovalsSubMultiset(next, plan[1..]);
    }
  }

  /** Every entry left after the recycle pass was in the list before it. */
  lemma RecycledKeepsEntries<T>(s: seq<T>, marked: seq<int>)
    requires StrictlyDescending(marked) && forall x | x in marked :: 0 <= x < |s|
    ensures multiset(Recycled(s, marked)) <= multiset(s)
    ensures forall x | x in Recycled(s, marked) :: x in s
  {
    RecyclePlanFits(marked, |s|);
    ApplyRemovalsSubMultiset(s, RecyclePlan(marked));
    forall x | x in Recycled(s, marked) ensures x in s {
      assert x in multiset(Recycled(s, marked));
    }
  }

  /**
   * Every planned removal either starts at slot 0 or stops just below a
   * marked index, the top of its run, which stays in the list: the range is
   * one slot lower than the run.
   */
  lemma {:induction false} PlanStopsBelowRunTop(v: seq<int>, removeEnd: int, removeLength: int, marked: seq<int>)
    requires removeEnd != -1 ==> removeEnd in marked
    requires forall x | x in v :: x in marked
    ensures forall r | r in PlanFrom(v, removeEnd, removeLength) :: r.start == 0 || r.start + r.length in marked
    decreases |v|
  {
    if |v| == 0 {
    } else if removeEnd == -1 {
      PlanStopsBelowRunTop(v[1..], v[0], 1, marked);
    } else {
      var adjacent := v[0] == removeEnd - removeLength;
      var length := if adjacent then IntMin(removeLength + 1, RecycleAmountPerFrame) else removeLength;
      var doRemove := if adjacent then |v| == 1 else true;
      if doRemove {
        PlanStopsBelowRunTop(v[1..], -1, 0, marked);
      } else {
        PlanStopsBelowRunTop(v[1..], removeEnd, length, marked);
      }
    }
  }

  lemma RecyclePlanStopsBelowRunTop(v: seq<int>)
    ensures forall r | r in RecyclePlan(v) :: r.start == 0 || r.start + r.length in v
  {
    PlanStopsBelowRunTop(v, -1, 0, v);
  }

  /** A single marked slot is never removed. */
  lemma LoneCandidateKept(c: int)
    ensures RecyclePlan([c]) == []
  {
    assert [c][1..] == [];
    assert PlanFrom([], c, 1) == [];
  }

  /** Slots 6 and 5 marked: the pass removes slots 4 and 5 and keeps slot 6. */
  lemma RunOfTwoRemovesOneLower()
    ensures RecyclePlan([6, 5]) == [Removal(4, 2)]
    ensures ApplyRemovals([0, 1, 2, 3, 4, 5, 6, 7], RecyclePlan([6, 5])) == [0, 1, 2, 3, 6, 7]
  {
    assert RecyclePlan([6, 5]) == [Removal(4, 2)];
    assert RemoveRangeSeq([0, 1, 2, 3, 4, 5, 6, 7], 4, 2) == [0, 1, 2, 3, 6, 7];
  }

  /** A run reaching slot 0 is removed exactly, thanks to the clamp at 0. */
  lemma RunDownToZeroRemovedExactly()
    ensures RecyclePlan([1, 0]) == [Removal(0, 2)]
  {
  }

  /**
   * Slots 9, 5 and 4 marked: 9 alone is closed by 5 and removed one low (slot
   * 8), 5 is dropped for the frame, and 4 opens a run that is never removed.
   */
  lemma BreakingIndexDropped()
    ensures RecyclePlan([9, 5, 4]) == [Removal(8, 1)]
  {
    assert PlanFrom([4], -1, 0) == [];
    assert PlanFrom([5, 4], 9, 1) == [Removal(8, 1)] + PlanFrom([4], -1, 0);
  }
}
