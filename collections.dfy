// Collections of tween handles: a set, whose members are driven together, and
// a sequence, whose members play one after another behind a cursor. Both
// forward commands to their members' handles, which queue them on their own
// tweeners, and both subscribe handlers on the members' handles; the tweener
// calls those handlers when a member starts or completes.

module Collections {
  import opened TweenTypes
  import opened Handles
  import opened FastLists

  // ----- forwarding a command to every member -----

  /** The tweeners owning the handles of `list`. */
  function Owners(list: seq<TweenHandle>): set<TweenerBase>
  {
    set h | h in list :: h.tweenerBase
  }

  /**
   * What tweener `b`'s queue gains when every handle of `list` is sent
   * `action` in list order: the entries of the handles `b` owns, in order.
   */
  function Forwarded(list: seq<TweenHandle>, b: TweenerBase, action: HandleActionType): seq<TweenHandleAction>
    reads b`handles
  {
    if |list| == 0 then []
    else
      var h := list[|list| - 1];
      Forwarded(list[..|list| - 1], b, action) + (if h.tweenerBase == b then QueuedEntry(b.handles, h, action) else [])
  }

  /**
   * Forwarding queues at most one entry per member, each carrying the command
   * and the index of a listed handle; when `b` owns and lists every member,
   * it queues exactly one entry per member.
   */
  lemma {:induction false} ForwardedEntries(list: seq<TweenHandle>, b: TweenerBase, action: HandleActionType)
    ensures |Forwarded(list, b, action)| <= |list|
    ensures forall e | e in Forwarded(list, b, action) ::
      e.actionType == action && 0 <= e.index < |b.handles| && b.handles[e.index] in list
    ensures (forall h | h in list :: h.tweenerBase == b && h in b.handles) ==> |Forwarded(list, b, action)| == |list|
  {
    if |list| > 0 {
      var front, h := list[..|list| - 1], list[|list| - 1];
      assert list == front + [h];
      ForwardedEntries(front, b, action);
      if h.tweenerBase == b {
        var q := QueuedEntry(b.handles, h, action);
        assert forall e | e in q :: b.handles[e.index] == h;
      }
      if forall x | x in list :: x.tweenerBase == b && x in b.handles {
        assert forall x | x in front :: x in list;
        assert h in list;
      }
    }
  }

  /** Forwarding one more member appends that member's entry, if `b` owns it. */
  lemma ForwardedSnoc(list: seq<TweenHandle>, b: TweenerBase, action: HandleActionType, i: int)
    requires 0 <= i < |list|
    ensures Forwarded(list[..i + 1], b, action)
            == Forwarded(list[..i], b, action) + (if list[i].tweenerBase == b then QueuedEntry(b.handles, list[i], action) else [])
  {
    assert list[..i + 1][..i] == list[..i];
  }

  /**
   * The loop of the set's commands (and of the sequence's Rewind, Restart
   * and Recycle): every member, in list order, is sent `action`. Each member
   * remembers it as its latest command, and each owning tweener's queue gains
   * the Forwarded entries; nothing else changes.
   */
  method SendAll(list: seq<TweenHandle>, action: HandleActionType)
    modifies list`actionType, Owners(list)`actionQueue
    ensures forall h | h in list :: h.actionType == action
    ensures forall b | b in Owners(list) :: b.actionQueue == old(b.actionQueue) + Forwarded(list, b, action)
  {
    ghost var start := map b | b in Owners(list) :: b.actionQueue;
    var i := 0;
    while i < |list|
      invariant 0 <= i <= |list|
      invariant forall k | 0 <= k < i :: list[k].actionType == action
      invariant forall b | b in Owners(list) :: b.actionQueue == start[b] + Forwarded(list[..i], b, action)
    {
      SendOne(list, i, list[i], action, start);
      i := i + 1;
    }
    assert list[..i] == list;
  }

  /**
   * One pass of SendAll's loop: member `i` is sent `action`, so members 0 to
   * `i` now remember it, and each owner's queue holds what it held at `start`
   * plus the entries forwarded for members 0 to `i`.
   */
  method SendOne(list: seq<TweenHandle>, i: int, h: TweenHandle, action: HandleActionType,
                 ghost start: map<TweenerBase, seq<TweenHandleAction>>)
    requires 0 <= i < |list| && list[i] == h && start.Keys == Owners(list)
    requires forall k | 0 <= k < i :: list[k].actionType == action
    requires forall b | b in Owners(list) :: b.actionQueue == start[b] + Forwarded(list[..i], b, action)
    modifies h`actionType, h.tweenerBase`actionQueue
    ensures forall k | 0 <= k <= i :: list[k].actionType == action
    ensures forall b | b in Owners(list) :: b.actionQueue == start[b] + Forwarded(list[..i + 1], b, action)
  {
    assert h in list;
    label Before:
    h.Issue(action);
    forall k | 0 <= k <= i
      ensures list[k].actionType == action
    {
      if list[k] != h {
        assert list[k].actionType == old@Before(list[k].actionType);
      }
    }
    forall b | b in Owners(list)
      ensures b.actionQueue == start[b] + Forwarded(list[..i + 1], b, action)
    {
      ForwardedSnoc(list, b, action, i);
      ConcatAssoc(start[b], Forwarded(list[..i], b, action),
        if h.tweenerBase == b then QueuedEntry(b.handles, h, action) else []);
      if b != h.tweenerBase {
        assert b.actionQueue == old@Before(b.actionQueue);
      }
    }
  }

  /** Every member's handle reports IsCompleted. */
  predicate AllCompleted(list: seq<TweenHandle>)
    reads list
  {
    forall h | h in list :: h.IsCompleted()
  }

  // ----- the shared part -----

  /** The member list, the started and completed listeners, and the once-only flags every collection has. */
  class TweenCollectionBase {
    var tweenList: seq<TweenHandle>
    var onStart: seq<Listener>
    var onComplete: seq<Listener>
    var isStarted: bool
    var isCompleted: bool

    /** A new collection: no members, no listeners, neither started nor completed. */
    constructor ()
      ensures tweenList == [] && onStart == [] && onComplete == [] && !isStarted && !isCompleted
    {
      tweenList := [];
      onStart := [];
      onComplete := [];
      isStarted := false;
      isCompleted := false;
    }

    /** `_onStart += onStart`: earlier listeners stay. */
    method AddOnStarted(onStart: Listener)
      modifies this`onStart
      ensures this.onStart == old(this.onStart) + [onStart]
    {
      this.onStart := this.onStart + [onStart];
    }

    /** `_onComplete += onComplete`: earlier listeners stay. */
    method AddOnComplete(onComplete: Listener)
      modifies this`onComplete
      ensures this.onComplete == old(this.onComplete) + [onComplete]
    {
      this.onComplete := this.onComplete + [onComplete];
    }

    /** What Clear does after recycling: both flags are reset and both listener lists dropped. */
    method ResetFlagsAndListeners()
      modifies this`isStarted, this`isCompleted, this`onStart, this`onComplete
      ensures !isStarted && !isCompleted && onStart == [] && onComplete == []
    {
      isStarted := false;
      isCompleted := false;
      onStart := [];
      onComplete := [];
    }
  }

  // ----- TweenSet -----

  /**
   * Members driven together. The started listeners fire on the first member
   * start after creation or a reset, the completed listeners once every
   * member has completed, each at most once until Restart, Rewind or Recycle.
   */
  class TweenSet {
    const base: TweenCollectionBase

    constructor ()
      ensures fresh(base)
      ensures base.tweenList == [] && base.onStart == [] && base.onComplete == []
      ensures !base.isStarted && !base.isCompleted
    {
      base := new TweenCollectionBase();
    }

    /** Subscribes the set's started and completed handlers on `h`, then appends `h`. */
    method Add(h: TweenHandle)
      modifies h`started, h`completed, base`tweenList
      ensures h.started == old(h.started) + [CollectionStarted(this)]
      ensures h.completed == old(h.completed) + [CollectionCompleted(this)]
      ensures base.tweenList == old(base.tweenList) + [h]
    {
      h.AddOnStartedListener(CollectionStarted(this));
      h.AddOnCompletedListener(CollectionCompleted(this));
      base.tweenList := base.tweenList + [h];
    }

    /** Play forwarded to every member; the set's own state is unchanged. */
    method Play()
      modifies base.tweenList`actionType, Owners(base.tweenList)`actionQueue
      ensures forall h | h in base.tweenList :: h.actionType == HandleActionType.Play
      ensures forall b | b in Owners(base.tweenList) ::
        b.actionQueue == old(b.actionQueue) + Forwarded(base.tweenList, b, HandleActionType.Play)
    {
      SendAll(base.tweenList, HandleActionType.Play);
    }

    /** Pause forwarded to every member; the set's own state is unchanged. */
    method Pause()
      modifies base.tweenList`actionType, Owners(base.tweenList)`actionQueue
      ensures forall h | h in base.tweenList :: h.actionType == HandleActionType.Pause
      ensures forall b | b in Owners(base.tweenList) ::
        b.actionQueue == old(b.actionQueue) + Forwarded(base.tweenList, b, HandleActionType.Pause)
    {
      SendAll(base.tweenList, HandleActionType.Pause);
    }

    /** Stop forwarded to every member; the set's own state is unchanged. */
    method Stop()
      modifies base.tweenList`actionType, Owners(base.tweenList)`actionQueue
      ensures forall h | h in base.tweenList :: h.actionType == HandleActionType.Stop
      ensures forall b | b in Owners(base.tweenList) ::
        b.actionQueue == old(b.actionQueue) + Forwarded(base.tweenList, b, HandleActionType.Stop)
    {
      SendAll(base.tweenList, HandleActionType.Stop);
    }

    /** Restart forwarded to every member, then both once-only flags are reset. */
    method Restart()
      modifies base.tweenList`actionType, Owners(base.tweenList)`actionQueue, base`isStarted, base`isCompleted
      ensures forall h | h in base.tweenList :: h.actionType == HandleActionType.Restart
      ensures forall b | b in Owners(base.tweenList) ::
        b.actionQueue == old(b.actionQueue) + Forwarded(base.tweenList, b, HandleActionType.Restart)
      ensures !base.isStarted && !base.isCompleted
    {
      SendAll(base.tweenList, HandleActionType.Restart);
      base.isStarted := false;
      base.isCompleted := false;
    }

    /** Rewind forwarded to every member, then both once-only flags are reset. */
    method Rewind()
      modifies base.tweenList`actionType, Owners(base.tweenList)`actionQueue, base`isStarted, base`isCompleted
      ensures forall h | h in base.tweenList :: h.actionType == HandleActionType.Rewind
      ensures forall b | b in Owners(base.tweenList) ::
        b.actionQueue == old(b.actionQueue) + Forwarded(base.tweenList, b, HandleActionType.Rewind)
      ensures !base.isStarted && !base.isCompleted
    {
      SendAll(base.tweenList, HandleActionType.Rewind);
      base.isStarted := false;
      base.isCompleted := false;
    }

    /** Recycle forwarded to every member; the flags are reset and the set emptied, its listeners kept. */
    method Recycle()
      modifies base.tweenList`actionType, Owners(base.tweenList)`actionQueue
      modifies base`isStarted, base`isCompleted, base`tweenList
      ensures forall h | h in old(base.tweenList) :: h.actionType == HandleActionType.Recycle
      ensures forall b | b in Owners(old(base.tweenList)) ::
        b.actionQueue == old(b.actionQueue) + Forwarded(old(base.tweenList), b, HandleActionType.Recycle)
      ensures !base.isStarted && !base.isCompleted && base.tweenList == []
    {
      SendAll(base.tweenList, HandleActionType.Recycle);
      base.isStarted := false;
      base.isCompleted := false;
      base.tweenList := [];
    }

    /** Recycle, then both listener lists are dropped as well. */
    method Clear()
      modifies base.tweenList`actionType, Owners(base.tweenList)`actionQueue
      modifies base`isStarted, base`isCompleted, base`tweenList, base`onStart, base`onComplete
      ensures forall h | h in old(base.tweenList) :: h.actionType == HandleActionType.Recycle
      ensures forall b | b in Owners(old(base.tweenList)) ::
        b.actionQueue == old(b.actionQueue) + Forwarded(old(base.tweenList), b, HandleActionType.Recycle)
      ensures !base.isStarted && !base.isCompleted && base.tweenList == []
      ensures base.onStart == [] && base.onComplete == []
    {
      Recycle();
      base.ResetFlagsAndListeners();
    }

    /**
     * The handler a member's start calls: the first call after creation or a
     * reset marks the set started and invokes its started listeners; later
     * calls invoke nothing.
     */
    method OnTweenStarted() returns (invoked: seq<Listener>)
      modifies base`isStarted
      ensures base.isStarted
      ensures invoked == if old(base.isStarted) then [] else base.onStart
    {
      if base.isStarted {
        return [];
      }
      base.isStarted := true;
      invoked := base.onStart;
    }

    /**
     * The handler a member's completion calls: when every member has
     * completed and the set had not completed yet, the set becomes completed
     * and its completed listeners are invoked; otherwise nothing happens.
     */
    method OnTweenCompleted() returns (invoked: seq<Listener>)
      modifies base`isCompleted
      ensures base.isCompleted == (old(base.isCompleted) || AllCompleted(base.tweenList))
      ensures invoked == if !old(base.isCompleted) && AllCompleted(base.tweenList) then base.onComplete else []
    {
      var i := 0;
      while i < |base.tweenList|
        invariant 0 <= i <= |base.tweenList|
        invariant forall k | 0 <= k < i :: base.tweenList[k].IsCompleted()
      {
        if !base.tweenList[i].IsCompleted() {
          assert base.tweenList[i] in base.tweenList;
          return [];
        }
        i := i + 1;
      }
      if base.isCompleted {
        return [];
      }
      base.isCompleted := true;
      invoked := base.onComplete;
    }
  }

  // ----- TweenSequence -----

  /**
   * Members played one after another. `index` counts the members handed out
   * so far and `current` is the member playing.
   */
  class TweenSequence {
    const base: TweenCollectionBase
    var index: nat
    var current: TweenHandle?
    var onStep: seq<Listener>

    /**
     * The cursor invariant: the cursor lies within the member list, and the
     * current member, when there is one, is the last one handed out; before
     * the first, the cursor is at 0.
     */
    predicate CursorValid()
      reads this, base`tweenList
    {
      index <= |base.tweenList|
      && (current == null ==> index == 0)
      && (current != null ==> 0 < index && current == base.tweenList[index - 1])
    }

    constructor ()
      ensures fresh(base) && CursorValid()
      ensures base.tweenList == [] && base.onStart == [] && base.onComplete == []
      ensures !base.isStarted && !base.isCompleted
      ensures index == 0 && current == null && onStep == []
    {
      base := new TweenCollectionBase();
      index := 0;
      current := null;
      onStep := [];
    }

    /** Subscribes the sequence's completed handler on `h`, then appends `h`; the cursor is kept. */
    method Add(h: TweenHandle)
      modifies h`completed, base`tweenList
      ensures h.completed == old(h.completed) + [CollectionCompleted(this)]
      ensures base.tweenList == old(base.tweenList) + [h]
      ensures old(CursorValid()) ==> CursorValid()
    {
      h.AddOnCompletedListener(CollectionCompleted(this));
      base.tweenList := base.tweenList + [h];
    }

    /** `_onStep += onStep`: earlier listeners stay. */
    method AddOnStep(onStep: Listener)
      modifies this`onStep
      ensures this.onStep == old(this.onStep) + [onStep]
    {
      this.onStep := this.onStep + [onStep];
    }

    /** Play's first branch: no current member, members to play and the cursor at 0. */
    predicate Begins()
      reads this, base`tweenList
    {
      current == null && |base.tweenList| > 0 && index == 0
    }

    /** The member Play sends its command to: the first on a sequence not yet begun, else the current one. */
    function PlayTarget(): TweenHandle?
      reads this, base`tweenList
    {
      if Begins() then base.tweenList[0] else current
    }

    /** The member OnTweenCompleted plays next, if any remains past the cursor. */
    function NextMember(): TweenHandle?
      reads this, base`tweenList
    {
      if index < |base.tweenList| then base.tweenList[index] else null
    }

    /**
     * Play: on a sequence not yet begun (no current member, cursor at 0) with
     * members, the first member becomes current, the cursor moves to 1, the
     * started handler is subscribed on that member only, and it is played.
     * Otherwise the current member, if any, is played again.
     */
    method Play()
      modifies this`index, this`current
      modifies if Begins() then {base.tweenList[0]} else {}`started
      modifies if PlayTarget() == null then {} else {PlayTarget()}`actionType
      modifies if PlayTarget() == null then {} else {PlayTarget().tweenerBase}`actionQueue
      ensures old(CursorValid()) ==> CursorValid()
      ensures old(current == null && |base.tweenList| > 0 && index == 0) ==>
        var h := base.tweenList[0];
        current == h && index == 1 && h.actionType == HandleActionType.Play
        && h.started == old(h.started) + [CollectionStarted(this)]
        && h.tweenerBase.actionQueue == old(h.tweenerBase.actionQueue) + QueuedEntry(h.tweenerBase.handles, h, HandleActionType.Play)
      ensures old(current != null) ==>
        current == old(current) && index == old(index) && current.actionType == HandleActionType.Play
        && current.started == old(current.started)
        && current.tweenerBase.actionQueue
           == old(current.tweenerBase.actionQueue) + QueuedEntry(current.tweenerBase.handles, current, HandleActionType.Play)
      ensures old(current == null && (|base.tweenList| == 0 || index != 0)) ==>
        current == null && index == old(index)
      ensures forall x | x in base.tweenList && x != old(PlayTarget()) ::
        x.started == old(x.started) && x.actionType == old(x.actionType)
      ensures forall b | b in Owners(base.tweenList) && (old(PlayTarget()) == null || b != old(PlayTarget()).tweenerBase) ::
        b.actionQueue == old(b.actionQueue)
    {
      if current == null && |base.tweenList| > 0 && index == 0 {
        var h := base.tweenList[index];
        assert h in base.tweenList;
        index := index + 1;
        current := h;
        h.AddOnStartedListener(CollectionStarted(this));
        h.Play();
      } else if current != null {
        current.Play();
      }
    }

    /**
     * Pause, as written: the current member, if any, is sent Play, not Pause;
     * the cursor is unchanged.
     */
    method Pause()
      modifies if current == null then {} else {current}`actionType
      modifies if current == null then {} else {current.tweenerBase}`actionQueue
      ensures current != null ==>
        current.actionType == HandleActionType.Play
        && current.tweenerBase.actionQueue
           == old(current.tweenerBase.actionQueue) + QueuedEntry(current.tweenerBase.handles, current, HandleActionType.Play)
    {
      if current != null {
        current.Play();
      }
    }

    /** Stop: the current member, if any, is sent Stop; the cursor is unchanged. */
    method Stop()
      modifies if current == null then {} else {current}`actionType
      modifies if current == null then {} else {current.tweenerBase}`actionQueue
      ensures current != null ==>
        current.actionType == HandleActionType.Stop
        && current.tweenerBase.actionQueue
           == old(current.tweenerBase.actionQueue) + QueuedEntry(current.tweenerBase.handles, current, HandleActionType.Stop)
    {
      if current != null {
        current.Stop();
      }
    }

    /**
     * Rewind: every member is sent Rewind; with members, the first becomes
     * current and the cursor moves to 1; without, the cursor goes to 0 and
     * the current member is kept.
     */
    method Rewind()
      modifies base.tweenList`actionType, Owners(base.tweenList)`actionQueue, this`index, this`current
      ensures forall h | h in base.tweenList :: h.actionType == HandleActionType.Rewind
      ensures forall b | b in Owners(base.tweenList) ::
        b.actionQueue == old(b.actionQueue) + Forwarded(base.tweenList, b, HandleActionType.Rewind)
      ensures |base.tweenList| > 0 ==> index == 1 && current == base.tweenList[0]
      ensures |base.tweenList| == 0 ==> index == 0 && current == old(current)
      ensures old(CursorValid()) ==> CursorValid()
    {
      SendAll(base.tweenList, HandleActionType.Rewind);
      if |base.tweenList| > 0 {
        index := 1;
        current := base.tweenList[0];
      } else {
        index := 0;
      }
    }

    /**
     * Restart: every member is sent Rewind; with members, the first becomes
     * current, the cursor moves to 1 and the first member is sent Play;
     * without, the cursor goes to 0.
     */
    method Restart()
      modifies base.tweenList`actionType, Owners(base.tweenList)`actionQueue, this`index, this`current
      ensures |base.tweenList| == 0 ==> index == 0 && current == old(current)
      ensures |base.tweenList| > 0 ==>
        var h := base.tweenList[0];
        index == 1 && current == h && h.actionType == HandleActionType.Play
        && (forall x | x in base.tweenList && x != h :: x.actionType == HandleActionType.Rewind)
        && h.tweenerBase.actionQueue
           == old(h.tweenerBase.actionQueue) + Forwarded(base.tweenList, h.tweenerBase, HandleActionType.Rewind)
              + QueuedEntry(h.tweenerBase.handles, h, HandleActionType.Play)
      ensures forall b | b in Owners(base.tweenList) && (|base.tweenList| == 0 || b != base.tweenList[0].tweenerBase) ::
        b.actionQueue == old(b.actionQueue) + Forwarded(base.tweenList, b, HandleActionType.Rewind)
      ensures old(CursorValid()) ==> CursorValid()
    {
      SendAll(base.tweenList, HandleActionType.Rewind);
      if |base.tweenList| > 0 {
        index := 1;
        current := base.tweenList[0];
        assert current in base.tweenList;
        current.Play();
      } else {
        index := 0;
      }
    }

    /**
     * Recycle: every member is sent Recycle and the list is emptied; the
     * cursor, the current member and the listeners are kept.
     */
    method Recycle()
      modifies base.tweenList`actionType, Owners(base.tweenList)`actionQueue, base`tweenList
      ensures forall h | h in old(base.tweenList) :: h.actionType == HandleActionType.Recycle
      ensures forall b | b in Owners(old(base.tweenList)) ::
        b.actionQueue == old(b.actionQueue) + Forwarded(old(base.tweenList), b, HandleActionType.Recycle)
      ensures base.tweenList == [] && index == old(index) && current == old(current)
    {
      SendAll(base.tweenList, HandleActionType.Recycle);
      base.tweenList := [];
    }

    /**
     * Clear: Recycle, then the flags are reset and the started, completed and
     * step listeners dropped; the cursor and the current member are kept.
     */
    method Clear()
      modifies base.tweenList`actionType, Owners(base.tweenList)`actionQueue
      modifies base`isStarted, base`isCompleted, base`tweenList, base`onStart, base`onComplete, this`onStep
      ensures forall h | h in old(base.tweenList) :: h.actionType == HandleActionType.Recycle
      ensures forall b | b in Owners(old(base.tweenList)) ::
        b.actionQueue == old(b.actionQueue) + Forwarded(old(base.tweenList), b, HandleActionType.Recycle)
      ensures base.tweenList == [] && index == old(index) && current == old(current)
      ensures !base.isStarted && !base.isCompleted && base.onStart == [] && base.onComplete == [] && onStep == []
    {
      Recycle();
      base.ResetFlagsAndListeners();
      onStep := [];
    }

    /** The handler the first member's start calls: the started listeners are invoked, every time. */
    method OnTweenStarted() returns (invoked: seq<Listener>)
      ensures invoked == base.onStart
    {
      invoked := base.onStart;
    }

    /**
     * The handler a member's completion calls: when members remain past the
     * cursor, the next becomes current, the cursor advances, it is sent Play
     * and the step listeners are invoked; when none remain, the completed
     * listeners are invoked and the cursor stays.
     */
    method OnTweenCompleted() returns (invoked: seq<Listener>)
      modifies this`index, this`current
      modifies if NextMember() == null then {} else {NextMember()}`actionType
      modifies if NextMember() == null then {} else {NextMember().tweenerBase}`actionQueue
      ensures old(CursorValid()) ==> CursorValid()
      ensures old(index) >= |base.tweenList| ==>
        invoked == base.onComplete && index == old(index) && current == old(current)
      ensures old(index) < |base.tweenList| ==>
        var h := base.tweenList[old(index)];
        invoked == onStep && index == old(index) + 1 && current == h && h.actionType == HandleActionType.Play
        && h.tweenerBase.actionQueue
           == old(h.tweenerBase.actionQueue) + QueuedEntry(h.tweenerBase.handles, h, HandleActionType.Play)
      ensures forall x | x in base.tweenList && x != old(NextMember()) :: x.actionType == old(x.actionType)
      ensures forall b | b in Owners(base.tweenList) && (old(NextMember()) == null || b != old(NextMember()).tweenerBase) ::
        b.actionQueue == old(b.actionQueue)
    {
      if index > |base.tweenList| - 1 {
        invoked := base.onComplete;
      } else {
        var h := base.tweenList[index];
        assert h in base.tweenList;
        index := index + 1;
        current := h;
        h.Play();
        invoked := onStep;
      }
    }
  }

  /**
   * A sequence walked to its end: played from fresh, then each member's
   * completion hands out the next, so after |members| completions the cursor
   * is at the end and the last member is current.
   */
  method PlayThrough(q: TweenSequence) returns (steps: nat)
    requires q.index == 0 && q.current == null && |q.base.tweenList| > 0
    modifies q`index, q`current, q.base.tweenList`started, q.base.tweenList`actionType
    modifies Owners(q.base.tweenList)`actionQueue
    ensures q.CursorValid() && q.index == |q.base.tweenList| && q.current == q.base.tweenList[|q.base.tweenList| - 1]
    ensures steps == |q.base.tweenList| - 1
  {
    q.Play();
    steps := 0;
    while q.index < |q.base.tweenList|
      invariant q.CursorValid() && 0 < q.index <= |q.base.tweenList| && steps == q.index - 1
      invariant q.base.tweenList == old(q.base.tweenList)
      decreases |q.base.tweenList| - q.index
    {
      var _ := q.OnTweenCompleted();
      steps := steps + 1;
    }
  }

  // ----- the pools -----

  /**
   * The set and sequence pools: NewSet/NewSequence take from the front,
   * RecycleSet/RecycleSequence append at the back, so objects come back in
   * the order they were recycled.
   */
  class CollectionPools {
    var tweenSets: seq<TweenSet>
    var tweenSequences: seq<TweenSequence>

    constructor ()
      ensures tweenSets == [] && tweenSequences == []
    {
      tweenSets := [];
      tweenSequences := [];
    }

    /** The first pooled set, removed from the pool, or a new empty set when the pool is empty. */
    method NewSet() returns (s: TweenSet)
      modifies this`tweenSets
      ensures old(|tweenSets|) > 0 ==> s == old(tweenSets[0]) && tweenSets == old(tweenSets[1..])
      ensures old(|tweenSets|) == 0 ==>
        fresh(s) && fresh(s.base) && s.base.tweenList == [] && s.base.onStart == [] && s.base.onComplete == []
        && !s.base.isStarted && !s.base.isCompleted && tweenSets == []
    {
      if |tweenSets| > 0 {
        s := tweenSets[0];
        tweenSets := tweenSets[1..];
      } else {
        s := new TweenSet();
      }
    }

    /** Clears `s` (recycling its members and dropping its listeners), then appends it to the pool. */
    method RecycleSet(s: TweenSet)
      modifies this`tweenSets, s.base.tweenList`actionType, Owners(s.base.tweenList)`actionQueue
      modifies s.base`isStarted, s.base`isCompleted, s.base`tweenList, s.base`onStart, s.base`onComplete
      ensures tweenSets == old(tweenSets) + [s]
      ensures forall h | h in old(s.base.tweenList) :: h.actionType == HandleActionType.Recycle
      ensures s.base.tweenList == [] && s.base.onStart == [] && s.base.onComplete == []
      ensures !s.base.isStarted && !s.base.isCompleted
    {
      s.Clear();
      tweenSets := tweenSets + [s];
    }

    /** The first pooled sequence, removed from the pool, or a new empty sequence when the pool is empty. */
    method NewSequence() returns (q: TweenSequence)
      modifies this`tweenSequences
      ensures old(|tweenSequences|) > 0 ==> q == old(tweenSequences[0]) && tweenSequences == old(tweenSequences[1..])
      ensures old(|tweenSequences|) == 0 ==>
        fresh(q) && fresh(q.base) && q.base.tweenList == [] && q.index == 0 && q.current == null
        && tweenSequences == []
    {
      if |tweenSequences| > 0 {
        q := tweenSequences[0];
        tweenSequences := tweenSequences[1..];
      } else {
        q := new TweenSequence();
      }
    }

    /** Appends `q` to the pool as it is: it is not cleared, so it keeps its members, listeners and cursor. */
    method RecycleSequence(q: TweenSequence)
      modifies this`tweenSequences
      ensures tweenSequences == old(tweenSequences) + [q]
    {
      tweenSequences := tweenSequences + [q];
    }
  }

  /** The pools hand sets back first in, first out. */
  method SetPoolIsFifo(pools: CollectionPools, a: TweenSet, b: TweenSet) returns (first: TweenSet, second: TweenSet)
    requires pools.tweenSets == [] && a.base.tweenList == [] && b.base.tweenList == []
    modifies pools`tweenSets, a.base, b.base
    ensures first == a && second == b && pools.tweenSets == []
  {
    pools.RecycleSet(a);
    pools.RecycleSet(b);
    first := pools.NewSet();
    second := pools.NewSet();
  }

  /** A recycled sequence comes back from the pool with the members it had. */
  method ReusedSequenceKeepsMembers(pools: CollectionPools, q: TweenSequence) returns (r: TweenSequence)
    requires pools.tweenSequences == []
    modifies pools`tweenSequences
    ensures r == q && r.base.tweenList == old(q.base.tweenList) && r.index == old(q.index)
  {
    pools.RecycleSequence(q);
    r := pools.NewSequence();
  }
}
