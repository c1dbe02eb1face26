// The per-batch records: TweenTransformBatchState (newer revision, with a
// state flag set) and TweenBatch (older revision, with a completion byte).
// Both hold an unsigned 32-bit start index and length, and C# evaluates
// `startIndex + length` in 32-bit unsigned arithmetic, which wraps.

module BatchState {
  import opened TweenTypes

  const UintModulus: int := 0x1_0000_0000
  type uint32 = x: int | 0 <= x < 0x1_0000_0000

  /** `startIndex + length` as a `uint` sum: wraps modulo 2^32. */
  function UintSum(a: uint32, b: uint32): (r: uint32)
    ensures a + b < UintModulus ==> r == a + b
    ensures a + b >= UintModulus ==> r == a + b - UintModulus
  {
    (a + b) % UintModulus
  }

  /** `a -= b` on uints: wraps modulo 2^32. */
  function UintSub(a: uint32, b: uint32): (r: uint32)
    ensures a >= b ==> r == a - b
    ensures a < b ==> r == a - b + UintModulus
  {
    (a - b) % UintModulus
  }

  /** `(uint)x` for an `int` x, unchecked: a negative value wraps to `x + 2^32`. */
  function UintCast(x: int): (r: uint32)
    ensures 0 <= x < UintModulus ==> r == x
    ensures -UintModulus <= x < 0 ==> r == x + UintModulus
  {
    x % UintModulus
  }

  /**
   * `startIndex <= index && startIndex + length > index` with the int index
   * compared as a long and the sum wrapped as a uint.
   */
  predicate IncludesIndexOf(startIndex: uint32, length: uint32, index: int)
  {
    startIndex <= index && UintSum(startIndex, length) > index
  }

  datatype TweenTransformBatchState = TweenTransformBatchState(startIndex: uint32, length: uint32, state: set<StateFlag>)
  {
    predicate IsPlaying() { StateFlag.IsPlaying in state }
    predicate IsPaused() { StateFlag.IsPaused in state }
    predicate IsCompleted() { StateFlag.IsCompleted in state }
    predicate HasHandle() { StateFlag.HasHandle in state }
    predicate JustStarted() { StateFlag.JustStarted in state }
    predicate JustEnded() { StateFlag.JustEnded in state }
    predicate RequiresRecycling() { StateFlag.RequiresRecycling in state }

    predicate IncludesIndex(index: int) { IncludesIndexOf(startIndex, length, index) }
  }

  datatype TweenBatch = TweenBatch(startIndex: uint32, length: uint32, isCompleted: bool)
  {
    predicate IncludesIndex(index: int) { IncludesIndexOf(startIndex, length, index) }
  }

  /** Without overflow, IncludesIndex is exactly membership of the half-open range. */
  lemma IncludesIndexIsRange(startIndex: uint32, length: uint32, index: int)
    requires startIndex + length < UintModulus
    ensures IncludesIndexOf(startIndex, length, index) <==> startIndex <= index < startIndex + length
  {
  }

  /**
   * With overflow the range test fails: a batch reaching past 2^32 includes no
   * index at all, although its range is not empty.
   */
  lemma OverflowingBatchIncludesNothing(startIndex: uint32, length: uint32, index: int)
    requires startIndex + length >= UintModulus
    ensures !IncludesIndexOf(startIndex, length, index)
  {
  }

  /** An empty batch includes nothing; the index one past the end is never included; negatives never are. */
  lemma IncludesIndexBounds(startIndex: uint32, length: uint32, index: int)
    ensures length == 0 ==> !IncludesIndexOf(startIndex, length, index)
    ensures !IncludesIndexOf(startIndex, length, startIndex + length)
    ensures index < 0 ==> !IncludesIndexOf(startIndex, length, index)
    ensures startIndex + length < UintModulus ==> (IncludesIndexOf(startIndex, length, startIndex) <==> length > 0)
  {
  }

  /** Adjacent batches (`b` starting where `a` ends) include disjoint sets of indices. */
  lemma AdjacentBatchesDisjoint(a: TweenTransformBatchState, b: TweenTransformBatchState, index: int)
    requires b.startIndex == a.startIndex + a.length
    ensures !(a.IncludesIndex(index) && b.IncludesIndex(index))
  {
  }

  /** Completion does not affect which indices a TweenBatch covers. */
  lemma IncludesIndexIgnoresCompletion(b: TweenBatch, index: int)
    ensures b.IncludesIndex(index) == b.(isCompleted := !b.isCompleted).IncludesIndex(index)
  {
  }
}
