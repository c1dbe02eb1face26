// The handle a caller receives for a tween, and the part every tweener shares:
// the handle pool, the command queue and the list of handles by tween index.

module Handles {
  import opened TweenTypes
  import opened FastLists
  import opened Commands

  /** DEFAULT_FAST_LIST_SIZE: the initial capacity of every list and the size of the handle pool. */
  const DefaultFastListSize: nat := 10000

  /**
   * A callback subscribed to a handle. Callers' own delegates are opaque; the
   * collections subscribe their started/completed handlers, named by owner.
   */
  datatype Listener = Callback(id: nat) | CollectionStarted(owner: object) | CollectionCompleted(owner: object)

  /** A command waiting in a tweener's queue: its kind and the tween (or batch) index. */
  datatype TweenHandleAction = TweenHandleAction(actionType: HandleActionType, index: int)

  /**
   * The queue entry QueueTweenHandleAction adds for `h`: the command with the
   * first index holding `h`, or nothing (a warning) when `h` is not listed.
   */
  function QueuedEntry(handles: seq<TweenHandle?>, h: TweenHandle, actionType: HandleActionType): (r: seq<TweenHandleAction>)
    ensures |r| <= 1
    ensures |r| == 1 <==> h in handles
    ensures |r| == 1 ==> r[0].actionType == actionType && 0 <= r[0].index < |handles|
                         && handles[r[0].index] == h && h !in handles[..r[0].index]
  {
    var index := FirstIndex(handles, h);
    if index >= 0 then [TweenHandleAction(actionType, index)] else []
  }

  /** A command is harmless when its index is out of range, or it names a slot with a handle and is not NoAction. */
  predicate Drainable(handles: seq<TweenHandle?>, a: TweenHandleAction)
  {
    !(0 <= a.index < |handles|) || (a.actionType != NoAction && handles[a.index] != null)
  }

  class TweenHandle {
    var started: seq<Listener>
    var completed: seq<Listener>
    var actionType: HandleActionType
    var state: set<StateFlag>
    const tweenerBase: TweenerBase

    constructor (tweenerBase: TweenerBase)
      ensures this.tweenerBase == tweenerBase
      ensures started == [] && completed == [] && actionType == NoAction && state == {}
    {
      this.tweenerBase := tweenerBase;
      started := [];
      completed := [];
      actionType := NoAction;
      state := {};
    }

    predicate IsPlaying() reads this { StateFlag.IsPlaying in state }
    predicate IsPaused() reads this { StateFlag.IsPaused in state }
    predicate IsCompleted() reads this { StateFlag.IsCompleted in state }
    predicate HasHandle() reads this { StateFlag.HasHandle in state }
    predicate JustStarted() reads this { StateFlag.JustStarted in state }
    predicate JustEnded() reads this { StateFlag.JustEnded in state }
    predicate RequiresRecycling() reads this { StateFlag.RequiresRecycling in state }

    /** Records `action` as the latest command and asks the owning tweener to queue it. */
    method Issue(action: HandleActionType)
      modifies this`actionType, tweenerBase`actionQueue
      ensures actionType == action && state == old(state)
      ensures tweenerBase.actionQueue == old(tweenerBase.actionQueue) + QueuedEntry(tweenerBase.handles, this, action)
    {
      actionType := action;
      tweenerBase.QueueTweenHandleAction(this);
    }

    method Play()
      modifies this`actionType, tweenerBase`actionQueue
      ensures actionType == HandleActionType.Play && state == old(state)
      ensures tweenerBase.actionQueue == old(tweenerBase.actionQueue) + QueuedEntry(tweenerBase.handles, this, HandleActionType.Play)
    {
      Issue(HandleActionType.Play);
    }

    method Pause()
      modifies this`actionType, tweenerBase`actionQueue
      ensures actionType == HandleActionType.Pause && state == old(state)
      ensures tweenerBase.actionQueue == old(tweenerBase.actionQueue) + QueuedEntry(tweenerBase.handles, this, HandleActionType.Pause)
    {
      Issue(HandleActionType.Pause);
    }

    method Rewind()
      modifies this`actionType, tweenerBase`actionQueue
      ensures actionType == HandleActionType.Rewind && state == old(state)
      ensures tweenerBase.actionQueue == old(tweenerBase.actionQueue) + QueuedEntry(tweenerBase.handles, this, HandleActionType.Rewind)
    {
      Issue(HandleActionType.Rewind);
    }

    method Restart()
      modifies this`actionType, tweenerBase`actionQueue
      ensures actionType == HandleActionType.Restart && state == old(state)
      ensures tweenerBase.actionQueue == old(tweenerBase.actionQueue) + QueuedEntry(tweenerBase.handles, this, HandleActionType.Restart)
    {
      Issue(HandleActionType.Restart);
    }

    method Stop()
      modifies this`actionType, tweenerBase`actionQueue
      ensures actionType == HandleActionType.Stop && state == old(state)
      ensures tweenerBase.actionQueue == old(tweenerBase.actionQueue) + QueuedEntry(tweenerBase.handles, this, HandleActionType.Stop)
    {
      Issue(HandleActionType.Stop);
    }

    method Recycle()
      modifies this`actionType, tweenerBase`actionQueue
      ensures actionType == HandleActionType.Recycle && state == old(state)
      ensures tweenerBase.actionQueue == old(tweenerBase.actionQueue) + QueuedEntry(tweenerBase.handles, this, HandleActionType.Recycle)
    {
      Issue(HandleActionType.Recycle);
    }

    /** `Started += onStart`: earlier listeners stay. */
    method AddOnStartedListener(onStart: Listener)
      modifies this`started
      ensures started == old(started) + [onStart]
    {
      started := started + [onStart];
    }

    /** `Completed += onCompleted`: earlier listeners stay. */
    method AddOnCompletedListener(onCompleted: Listener)
      modifies this`completed
      ensures completed == old(completed) + [onCompleted]
    {
      completed := completed + [onCompleted];
    }

    /** Forgets the latest command and every listener; the state is left as it was. */
    method Reset()
      modifies this`actionType, this`started, this`completed
      ensures actionType == NoAction && started == [] && completed == []
    {
      actionType := NoAction;
      started := [];
      completed := [];
    }
  }

  class TweenerBase {
    /** The pool of handles ready for reuse, front first. */
    var handlePool: seq<TweenHandle>
    /** Commands from handles, oldest first. */
    var actionQueue: seq<TweenHandleAction>
    /** The handle of each tween (or batch) by index; null where the tween has none. */
    var handles: seq<TweenHandle?>
    var deltaTime: real
    var isJobScheduled: bool

    /** Every pooled handle belongs to this tweener. */
    ghost predicate Valid()
      reads this, handlePool
    {
      forall h | h in handlePool :: h.tweenerBase == this
    }

    /** The handles listed in `handles`. */
    function HandleSet(): set<TweenHandle>
      reads this`handles
    {
      set h: TweenHandle | h in handles
    }

    constructor ()
      ensures Valid()
      ensures handlePool == [] && actionQueue == [] && handles == []
      ensures deltaTime == 0.0 && !isJobScheduled
    {
      handlePool := [];
      actionQueue := [];
      handles := [];
      deltaTime := 0.0;
      isJobScheduled := false;
    }

    /** Adds DEFAULT_FAST_LIST_SIZE fresh handles, owned by this tweener, to the back of the pool. */
    method Setup()
      requires Valid()
      modifies this`handlePool
      ensures Valid()
      ensures |handlePool| == old(|handlePool|) + DefaultFastListSize
      ensures handlePool[..old(|handlePool|)] == old(handlePool)
      ensures forall i | old(|handlePool|) <= i < |handlePool| ::
        fresh(handlePool[i]) && handlePool[i].state == {} && handlePool[i].actionType == NoAction
        && handlePool[i].started == [] && handlePool[i].completed == []
    {
      var i := 0;
      while i < DefaultFastListSize
        invariant 0 <= i <= DefaultFastListSize
        invariant |handlePool| == old(|handlePool|) + i
        invariant handlePool[..old(|handlePool|)] == old(handlePool)
        invariant forall k | old(|handlePool|) <= k < |handlePool| ::
          fresh(handlePool[k]) && handlePool[k].state == {} && handlePool[k].actionType == NoAction
          && handlePool[k].started == [] && handlePool[k].completed == []
        invariant Valid()
      {
        var h := new TweenHandle(this);
        handlePool := handlePool + [h];
        i := i + 1;
      }
    }

    /**
     * Takes the handle at the front of the pool and resets it, or makes a new
     * handle when the pool is empty.
     */
    method GetNextAvailableTweenHandle() returns (h: TweenHandle)
      requires Valid()
      modifies this`handlePool, if |handlePool| > 0 then {handlePool[0]} else {}
      ensures Valid() && h.tweenerBase == this
      ensures h.actionType == NoAction && h.started == [] && h.completed == []
      ensures old(|handlePool|) > 0 ==> h == old(handlePool[0]) && handlePool == old(handlePool[1..]) && h.state == old(h.state)
      ensures old(|handlePool|) == 0 ==> fresh(h) && h.state == {} && handlePool == []
    {
      if |handlePool| > 0 {
        h := handlePool[0];
        h.Reset();
        handlePool := handlePool[1..];
      } else {
        h := new TweenHandle(this);
      }
    }

    /**
     * The handle a new tween (or batch) gets: taken from the pool (or new)
     * only when the caller asked for a handle or gave a callback, put in its
     * start state, with the callbacks registered on it; null otherwise.
     */
    method AttachHandle(onStart: Option<Listener>, onComplete: Option<Listener>, useTweenHandle: bool)
      returns (entry: TweenHandle?)
      requires Valid()
      modifies this`handlePool, if |handlePool| > 0 then {handlePool[0]} else {}
      ensures Valid()
      ensures entry != null <==> useTweenHandle || onStart.Some? || onComplete.Some?
      ensures entry == null ==> handlePool == old(handlePool)
      ensures entry != null ==>
        entry.tweenerBase == this && entry.state == StartState(useTweenHandle) && entry.actionType == NoAction
        && entry.started == (if onStart.Some? then [onStart.value] else [])
        && entry.completed == (if onComplete.Some? then [onComplete.value] else [])
        && (old(|handlePool|) > 0 ==> entry == old(handlePool[0]) && handlePool == old(handlePool[1..]))
        && (old(|handlePool|) == 0 ==> fresh(entry) && handlePool == [])
    {
      entry := null;
      if useTweenHandle || onStart.Some? || onComplete.Some? {
        var availableTweenHandle := GetNextAvailableTweenHandle();
        availableTweenHandle.state := StartState(useTweenHandle);
        if onStart.Some? {
          availableTweenHandle.AddOnStartedListener(onStart.value);
        }
        if onComplete.Some? {
          availableTweenHandle.AddOnCompletedListener(onComplete.value);
        }
        entry := availableTweenHandle;
      }
    }

    /** Queues `h`'s latest command for the tween at the first index holding `h`; unknown handles are dropped. */
    method QueueTweenHandleAction(h: TweenHandle)
      modifies this`actionQueue
      ensures actionQueue == old(actionQueue) + QueuedEntry(handles, h, h.actionType)
    {
      var index := FirstIndex(handles, h);
      if index >= 0 {
        actionQueue := actionQueue + [TweenHandleAction(h.actionType, index)];
      }
    }
  }

  /** Two commands in a row on one handle both reach the queue, in order, though the handle remembers only the last. */
  method TwoCommandsBothQueued(h: TweenHandle)
    requires h in h.tweenerBase.handles
    modifies h`actionType, h.tweenerBase`actionQueue
    ensures h.actionType == HandleActionType.Pause
    ensures |h.tweenerBase.actionQueue| == old(|h.tweenerBase.actionQueue|) + 2
    ensures h.tweenerBase.actionQueue[|h.tweenerBase.actionQueue| - 2].actionType == HandleActionType.Play
    ensures h.tweenerBase.actionQueue[|h.tweenerBase.actionQueue| - 1].actionType == HandleActionType.Pause
  {
    h.Play();
    h.Pause();
  }
}
