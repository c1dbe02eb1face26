// FastList<T>: a growable array whose live prefix is `buffer[0 .. length)`.
// The sequence functions at the top give the list operations on contents; the
// class implements them on the buffer, and the tweeners, which keep their
// parallel lists as sequences, use the same functions.

module FastLists {
  import opened TweenTypes

  // ----- contents-level operations -----

  /** The least index holding `x`, or -1. */
  function FirstIndex<T(==)>(s: seq<T>, x: T): (i: int)
    ensures -1 <= i < |s|
    ensures i >= 0 ==> s[i] == x && x !in s[..i]
    ensures i == -1 <==> x !in s
  {
    if |s| == 0 then -1
    else if s[0] == x then 0
    else
      var j := FirstIndex(s[1..], x);
      assert s[1..][..j + 1] == s[1..j + 2] by { if j >= 0 { } }
      if j < 0 then -1 else j + 1
  }

  function RemoveAtSeq<T>(s: seq<T>, index: nat): seq<T>
    requires index < |s|
  {
    s[..index] + s[index + 1..]
  }

  function RemoveRangeSeq<T>(s: seq<T>, index: nat, n: nat): seq<T>
    requires index + n <= |s|
  {
    s[..index] + s[index + n..]
  }

  /** The contents after removing the first occurrence of `x`, if any. */
  function RemoveFirst<T(==)>(s: seq<T>, x: T): seq<T>
  {
    var i := FirstIndex(s, x);
    if i < 0 then s else RemoveAtSeq(s, i)
  }

  /** Removing the first occurrence takes exactly one copy of `x` out and keeps the rest in order. */
  lemma RemoveFirstTakesOneCopy<T>(s: seq<T>, x: T)
    ensures x in s ==> multiset(RemoveFirst(s, x)) == multiset(s) - multiset{x}
    ensures x in s ==> |RemoveFirst(s, x)| == |s| - 1
    ensures x !in s ==> RemoveFirst(s, x) == s
    ensures x in s ==> RemoveFirst(s, x)[..FirstIndex(s, x)] == s[..FirstIndex(s, x)]
  {
    var i := FirstIndex(s, x);
    if i >= 0 {
      var front, back := s[..i], s[i + 1..];
      assert RemoveFirst(s, x) == front + back;
      SplitAround(s, i);
      assert multiset(s) == multiset(front) + multiset{x} + multiset(back);
      assert (front + back)[..i] == front;
    }
  }

  /** Dropping the head of a concatenation with a non-empty front. */
  lemma ConsAppend<T>(x: seq<T>, y: seq<T>)
    requires |x| > 0
    ensures (x + y)[0] == x[0] && (x + y)[1..] == x[1..] + y
  {
    assert (x + y)[1..] == x[1..] + y;
  }

  /** Two drops are one. */
  lemma DropDrop<T>(s: seq<T>, n: nat, m: nat)
    requires n + m <= |s|
    ensures s[n..][m..] == s[n + m..]
  {
    assert s[n..][m..] == s[n + m..];
  }

  /** Concatenation is associative. */
  lemma ConcatAssoc<T>(a: seq<T>, b: seq<T>, c: seq<T>)
    ensures a + (b + c) == (a + b) + c
  {
    assert a + (b + c) == (a + b) + c;
  }

  /** A sequence is its prefix, element `i` and suffix. */
  lemma SplitAround<T>(s: seq<T>, i: nat)
    requires i < |s|
    ensures s == s[..i] + [s[i]] + s[i + 1..]
  {
    assert s == s[..i] + [s[i]] + s[i + 1..];
  }

  /** The capacity AddRange grows to: large enough for the new contents. */
  function GrowthTarget(capacity: nat, length: nat, n: nat): (c: nat)
    ensures c >= length + n && c >= 2 * capacity
  {
    if 2 * capacity >= length + n then 2 * capacity else length + n
  }

  /** The capacity Add grows a full buffer to. */
  function AddGrowthTarget(capacity: nat): (c: nat)
    ensures c > capacity && c >= 32
  {
    if 2 * capacity >= 32 then 2 * capacity else 32
  }

  // ----- the source's AddRange and RemoveRange as written -----

  /**
   * The capacity the source's AddRange asks for when the elements do not fit:
   * twice the capacity or the number of new elements, whichever is larger.
   */
  function AddRangeTargetAsWritten(capacity: nat, n: nat): nat
  {
    if 2 * capacity >= n then 2 * capacity else n
  }

  /**
   * The source's AddRange on a list with a buffer: the new capacity, or None
   * where the following Array.Copy would write past the end of the buffer and
   * so throws ArgumentException.
   */
  function AddRangeCapacityAsWritten(capacity: nat, length: nat, n: nat): Option<nat>
  {
    var c := if length + n > capacity then AddRangeTargetAsWritten(capacity, n) else capacity;
    if length + n <= c then Some(c) else None
  }

  /** Appending 20 elements to a full list of capacity 5 asks for capacity 20, too small, so the copy throws. */
  lemma AddRangeAsWrittenOverruns()
    ensures AddRangeTargetAsWritten(5, 20) == 20
    ensures AddRangeCapacityAsWritten(5, 5, 20) == None
    ensures GrowthTarget(5, 5, 20) == 25
  {
  }

  /**
   * The source's growth leaves room exactly when the new contents fit in twice
   * the old capacity or the list was empty.
   */
  lemma AddRangeAsWrittenFitsIff(capacity: nat, length: nat, n: nat)
    ensures AddRangeCapacityAsWritten(capacity, length, n).Some? <==> (length + n <= 2 * capacity || length == 0)
  {
  }

  /**
   * The source's RemoveRange on a buffer `buf` with live length `length`: it
   * copies `length - n` elements from `index + n` down to `index`. None where
   * the asserts fail or Array.Copy throws because its range leaves the buffer.
   */
  function RemoveRangeAsWritten<T>(buf: seq<T>, length: nat, index: nat, n: nat): Option<seq<T>>
  {
    var copyLength := length - n;
    if index + n > |buf| || copyLength < 0 || index + n + copyLength > |buf| then None
    else Some(buf[..index] + buf[index + n .. index + n + copyLength] + buf[index + copyLength..])
  }

  /** Removing elements 5..9 of a full buffer of 20 throws: the copy's source range ends 5 past the buffer. */
  lemma RemoveRangeAsWrittenOverruns<T>(buf: seq<T>)
    requires |buf| == 20
    ensures RemoveRangeAsWritten(buf, 20, 5, 5) == None
  {
  }

  /**
   * On a range inside the live part, the source's RemoveRange throws exactly
   * when the start plus the live length exceeds the capacity.
   */
  lemma RemoveRangeAsWrittenThrowsIff<T>(buf: seq<T>, length: nat, index: nat, n: nat)
    requires length <= |buf| && index + n <= length
    ensures RemoveRangeAsWritten(buf, length, index, n).None? <==> index + length > |buf|
  {
  }

  /**
   * The tweeners' lists start with capacity 10000. Full, they throw on removing
   * the second of two 5000-slot batches and on removing any range after the
   * first slot; appending 20000 transforms after one also throws.
   */
  lemma TweenerListsAsWrittenThrow<T>(buf: seq<T>)
    requires |buf| == 10000
    ensures RemoveRangeAsWritten(buf, 10000, 5000, 5000).None?
    ensures forall index: nat | 1 <= index < 10000 :: RemoveRangeAsWritten(buf, 10000, index, 1).None?
    ensures AddRangeCapacityAsWritten(10000, 1, 20000).None?
  {
  }

  /** Where the source's copy stays in bounds, the live prefix it leaves is the intended one. */
  lemma RemoveRangeAsWrittenContents<T>(buf: seq<T>, length: nat, index: nat, n: nat)
    requires length <= |buf| && index + n <= length
    requires RemoveRangeAsWritten(buf, length, index, n).Some?
    ensures |RemoveRangeAsWritten(buf, length, index, n).value| == |buf|
    ensures RemoveRangeAsWritten(buf, length, index, n).value[..length - n]
            == RemoveRangeSeq(buf[..length], index, n)
  {
    var r := RemoveRangeAsWritten(buf, length, index, n).value;
    var copyLength := length - n;
    assert r[..index] == buf[..index];
    forall k | index <= k < length - n
      ensures r[k] == RemoveRangeSeq(buf[..length], index, n)[k]
    {
      assert r[k] == buf[k + n];
    }
  }

  // ----- the list itself -----

  class FastList<T(==)> {
    var buffer: array?<T>
    var length: int
    /** The value C#'s `default(T)` gives for the element type. */
    const defaultValue: T

    ghost predicate Valid()
      reads this
    {
      (buffer == null ==> length == 0) && (buffer != null ==> 0 <= length <= buffer.Length)
    }

    ghost function Contents(): seq<T>
      reads this, buffer
      requires Valid()
    {
      if buffer == null then [] else buffer[..length]
    }

    /** `new FastList<T>()`: no buffer yet. */
    constructor Empty(defaultValue: T)
      ensures Valid() && buffer == null && Contents() == []
      ensures this.defaultValue == defaultValue
    {
      this.defaultValue := defaultValue;
      buffer := null;
      length := 0;
    }

    /**
     * `new FastList<T>(capacity)`: the constructor's SetCapacity allocates the
     * buffer; on a negative capacity the allocation throws and no list is made
     * (null here).
     */
    static method WithCapacity(capacity: int, defaultValue: T) returns (list: FastList?<T>)
      ensures list == null <==> capacity < 0
      ensures list != null ==>
        fresh(list) && list.Valid() && list.buffer != null && fresh(list.buffer) && list.buffer.Length == capacity
        && list.Contents() == [] && list.defaultValue == defaultValue
    {
      list := new FastList<T>.Empty(defaultValue);
      var thrown := list.SetCapacity(capacity);
      if thrown {
        list := null;
      }
    }

    /**
     * Allocates the first buffer, grows to a larger capacity keeping the
     * contents, or releases the buffer for a capacity <= 0; a smaller positive
     * capacity changes nothing. Allocating a first buffer of negative size
     * throws (`thrown`), and nothing changes.
     */
    method SetCapacity(capacity: int) returns (thrown: bool)
      requires Valid()
      modifies this
      ensures Valid()
      ensures thrown <==> old(buffer) == null && capacity < 0
      ensures thrown ==> buffer == null && Contents() == []
      ensures old(buffer) == null && capacity >= 0 ==>
        buffer != null && fresh(buffer) && buffer.Length == capacity && Contents() == []
      ensures old(buffer) != null && capacity > old(buffer.Length) ==>
        buffer != null && fresh(buffer) && buffer.Length == capacity && Contents() == old(Contents())
      ensures old(buffer) != null && capacity <= 0 ==> buffer == null && Contents() == []
      ensures old(buffer) != null && 0 < capacity <= old(buffer.Length) ==>
        buffer == old(buffer) && length == old(length)
    {
      thrown := false;
      if buffer == null {
        if capacity < 0 {
          return true;
        }
        buffer := new T[capacity](_ => defaultValue);
      } else if capacity > buffer.Length {
        var objArray := new T[capacity](_ => defaultValue);
        forall k | 0 <= k < length {
          objArray[k] := buffer[k];
        }
        buffer := objArray;
      } else if capacity <= 0 {
        Release();
      }
    }

    method Contains(item: T) returns (found: bool)
      requires Valid()
      ensures found <==> item in Contents()
    {
      if buffer == null {
        return false;
      }
      found := false;
      var i := 0;
      while i < length
        invariant 0 <= i <= length
        invariant item !in buffer[..i]
      {
        if buffer[i] == item {
          found := true;
          assert buffer[..length][i] == item;
          break;
        }
        i := i + 1;
      }
      assert !found ==> buffer[..i] == buffer[..length];
    }

    /**
     * `SetCapacity(Length)`: never shrinks a non-empty list; an empty list with a
     * buffer is released, and a released list gets an empty buffer.
     */
    method Trim()
      requires Valid()
      modifies this
      ensures Valid() && Contents() == old(Contents())
      ensures old(buffer) == null ==> buffer != null && fresh(buffer) && buffer.Length == 0
      ensures old(buffer) != null && old(length) == 0 ==> buffer == null
      ensures old(length) > 0 ==> buffer == old(buffer)
    {
      var thrown := SetCapacity(length);
    }

    /** Forgets the contents but keeps the buffer. */
    method Clear()
      requires Valid()
      modifies this
      ensures Valid() && Contents() == [] && buffer == old(buffer)
    {
      length := 0;
    }

    /** Forgets the contents and the buffer. */
    method Release()
      modifies this
      ensures Valid() && Contents() == [] && buffer == null
    {
      length := 0;
      buffer := null;
    }

    /** Appends `item`, first growing a missing or full buffer to max(2 * Capacity, 32). */
    method Add(item: T)
      requires Valid()
      modifies this, buffer
      ensures Valid() && buffer != null
      ensures Contents() == old(Contents()) + [item]
      ensures old(buffer) == null ==> fresh(buffer) && buffer.Length == 32
      ensures old(buffer) != null && old(length) == old(buffer.Length) ==>
        fresh(buffer) && buffer.Length == AddGrowthTarget(old(buffer.Length))
      ensures old(buffer) != null && old(length) < old(buffer.Length) ==> buffer == old(buffer)
    {
      if buffer == null || length == buffer.Length {
        var thrown := SetCapacity(if buffer != null then AddGrowthTarget(buffer.Length) else 32);
      }
      buffer[length] := item;
      length := length + 1;
    }

    /** Removes and returns the last element; an empty list returns `default(T)`. */
    method PopLast() returns (result: T)
      requires Valid()
      modifies this
      ensures Valid() && buffer == old(buffer)
      ensures old(length) == 0 ==> result == defaultValue && Contents() == []
      ensures old(length) > 0 ==>
        result == old(Contents())[old(length) - 1] && Contents() == old(Contents())[..old(length) - 1]
    {
      if length == 0 {
        result := defaultValue;
      } else {
        result := buffer[length - 1];
        length := length - 1;
      }
    }

    /** Removes the first element equal to `item`, shifting the later ones left. */
    method Remove(item: T)
      requires Valid()
      modifies this, buffer
      ensures Valid() && buffer == old(buffer)
      ensures Contents() == RemoveFirst(old(Contents()), item)
    {
      if buffer == null {
        return;
      }
      var i := 0;
      while i < length
        invariant 0 <= i <= length
        invariant item !in buffer[..i]
      {
        if buffer[i] == item {
          RemoveFirstAt(item, i);
          return;
        }
        i := i + 1;
      }
      assert buffer[..i] == buffer[..length];
    }

    /** The found branch of Remove: element `i` is the first copy of `item`, and it is removed. */
    method RemoveFirstAt(item: T, i: int)
      requires Valid() && buffer != null && 0 <= i < length && buffer[i] == item && item !in buffer[..i]
      modifies this, buffer
      ensures Valid() && buffer == old(buffer)
      ensures Contents() == RemoveFirst(old(Contents()), item)
    {
      ghost var c := buffer[..length];
      assert c[..i] == buffer[..i];
      FirstIndexIsUnique(c, item, i);
      length := length - 1;
      ResortArray(i);
      assert Contents() == RemoveAtSeq(c, i);
    }

    method IndexOf(item: T) returns (index: int)
      requires Valid()
      ensures index == FirstIndex(Contents(), item)
    {
      index := 0;
      while index < length
        invariant 0 <= index <= length
        invariant item !in Contents()[..index]
      {
        if buffer[index] == item {
          assert Contents()[..index + 1] == Contents()[..index] + [item];
          FirstIndexIsUnique(Contents(), item, index);
          return;
        }
        assert Contents()[..index + 1] == Contents()[..index] + [buffer[index]];
        index := index + 1;
      }
      assert Contents()[..index] == Contents();
      index := -1;
    }

    /**
     * Removes element `index`, shifting the later elements left (not a swap
     * with the last). The length drops by one before the index is looked at:
     * an index outside the list then makes the copy throw (`thrown`), except
     * -1 on an empty list, which leaves the length at -1 without a throw.
     */
    method RemoveAt(index: int) returns (thrown: bool)
      requires Valid()
      modifies this, buffer
      ensures buffer == old(buffer) && length == old(length) - 1
      ensures thrown <==> !(0 <= index < old(length)) && !(old(length) == 0 && index == -1)
      ensures 0 <= index < old(length) ==> Valid() && Contents() == RemoveAtSeq(old(Contents()), index)
      ensures !(0 <= index < old(length)) && buffer != null ==> buffer[..] == old(buffer[..])
    {
      length := length - 1;
      if length != index {
        if buffer == null || index < 0 || index > length {
          return true;
        }
        ResortArray(index);
      }
      thrown := false;
    }

    /** Moves `buffer[index + 1 .. length + 1)` down by one. */
    method ResortArray(index: int)
      requires buffer != null && 0 <= index <= length < buffer.Length
      modifies buffer
      ensures buffer[..length] == old(buffer[..index]) + old(buffer[index + 1 .. length + 1])
      ensures buffer[length..] == old(buffer[length..])
    {
      forall k | index <= k < length {
        buffer[k] := buffer[k + 1];
      }
    }

    /** Appends all of `items`, first growing the buffer when they do not fit. */
    method AddRange(items: seq<T>)
      requires Valid()
      modifies this, buffer
      ensures Valid() && buffer != null
      ensures Contents() == old(Contents()) + items
      ensures old(buffer) == null ==> fresh(buffer) && buffer.Length == |items|
      ensures old(buffer) != null && old(length) + |items| > old(buffer.Length) ==>
        fresh(buffer) && buffer.Length == GrowthTarget(old(buffer.Length), old(length), |items|)
      ensures old(buffer) != null && old(length) + |items| <= old(buffer.Length) ==> buffer == old(buffer)
    {
      var thrown := AddRangeSlice(items, 0, |items|);
      assert items[0..|items|] == items;
    }

    /**
     * Appends `items[startIndex .. startIndex + n)`, first growing the buffer
     * when they do not fit. A negative start or count, or a slice past the end
     * of `items`, makes the copy throw (`thrown`) after any growth, with the
     * contents unchanged; a negative count on a list without a buffer already
     * throws in the growth.
     */
    method AddRangeSlice(items: seq<T>, startIndex: int, n: int) returns (thrown: bool)
      requires Valid()
      modifies this, buffer
      ensures Valid()
      ensures thrown <==> startIndex < 0 || n < 0 || startIndex + n > |items|
      ensures !thrown ==> buffer != null && Contents() == old(Contents()) + items[startIndex .. startIndex + n]
      ensures thrown ==> Contents() == old(Contents())
      ensures old(buffer) == null && n >= 0 ==> buffer != null && fresh(buffer) && buffer.Length == n
      ensures old(buffer) != null && n > 0 && old(length) + n > old(buffer.Length) ==>
        buffer != null && fresh(buffer) && buffer.Length == GrowthTarget(old(buffer.Length), old(length), n)
      ensures n < 0 || (old(buffer) != null && old(length) + n <= old(buffer.Length)) ==> buffer == old(buffer)
    {
      if buffer == null || length + n > buffer.Length {
        var grown := SetCapacity(if buffer != null then GrowthTarget(buffer.Length, length, n) else n);
        if grown {
          return true;
        }
      }
      if startIndex < 0 || n < 0 || startIndex + n > |items| {
        return true;
      }
      forall k | 0 <= k < n {
        buffer[length + k] := items[startIndex + k];
      }
      length := length + n;
      thrown := false;
    }

    /** Removes `n` elements starting at `index`, shifting the later ones left. */
    method RemoveRange(index: int, n: int)
      requires Valid() && buffer != null && 0 <= index && 0 <= n && index + n <= length
      modifies this, buffer
      ensures Valid() && buffer == old(buffer)
      ensures Contents() == RemoveRangeSeq(old(Contents()), index, n)
    {
      var copyLength := length - index - n;
      forall k | index <= k < index + copyLength {
        buffer[k] := buffer[k + n];
      }
      length := length - n;
    }
  }

  lemma FirstIndexIsUnique<T>(s: seq<T>, x: T, i: int)
    requires 0 <= i < |s| && s[i] == x && x !in s[..i]
    ensures FirstIndex(s, x) == i
  {
  }

  // ----- the list tests -----

  /** Three appends of five ones grow the list to 15 ones with capacities 5, 10 and 20. */
  method AddRangeScenario() returns (length: int, capacities: seq<int>, contents: seq<int>)
    ensures length == 15 && capacities == [5, 10, 20]
    ensures contents == [1, 1, 1, 1, 1, 1, 1, 1, 1, 1, 1, 1, 1, 1, 1]
  {
    var list := new FastList<int>.Empty(0);
    var ones := [1, 1, 1, 1, 1];
    list.AddRange(ones);
    capacities := [list.buffer.Length];
    list.AddRange(ones);
    capacities := capacities + [list.buffer.Length];
    list.AddRange(ones);
    capacities := capacities + [list.buffer.Length];
    length := list.length;
    contents := list.buffer[..list.length];
  }

  /** Removing the middle five of 2,2,2,2,2,1,1,1,1,1,2,2,2,2,2 leaves ten twos. */
  method RemoveRangeScenario() returns (length: int, contents: seq<int>)
    ensures length == 10 && contents == [2, 2, 2, 2, 2, 2, 2, 2, 2, 2]
  {
    var list := new FastList<int>.Empty(0);
    list.AddRange([2, 2, 2, 2, 2]);
    list.AddRange([1, 1, 1, 1, 1]);
    list.AddRange([2, 2, 2, 2, 2]);
    list.RemoveRange(5, 5);
    length := list.length;
    contents := list.buffer[..list.length];
  }

  /** Two maps over the same keys that differ at most at `k` are one update apart. */
  lemma MapUpdateOne<K, V>(before: map<K, V>, after: map<K, V>, k: K)
    requires k in before && before.Keys == after.Keys
    requires forall x | x in before && x != k :: after[x] == before[x]
    ensures after == before[k := after[k]]
  {
  }
}
