// The tweeners' start states and the transition table a queued handle command
// applies to a tween's (or a batch's) state flags.

module Commands {
  import opened TweenTypes

  /** A tween started without a handle plays at once. */
  const NoHandleStart: set<StateFlag> := {StateFlag.IsPlaying, StateFlag.JustStarted}
  /** A tween started with a handle waits, paused, for its first Play. */
  const HandleStartPaused: set<StateFlag> := {StateFlag.IsPaused, StateFlag.JustStarted, StateFlag.HasHandle}
  /** The state Restart puts a tween in. */
  const HandleStartPlaying: set<StateFlag> := {StateFlag.IsPlaying, StateFlag.JustStarted, StateFlag.HasHandle}

  /** The state a freshly created tween gets. */
  function StartState(useTweenHandle: bool): (s: set<StateFlag>)
    ensures StateFlag.JustStarted in s
    ensures StateFlag.HasHandle in s <==> useTweenHandle
    ensures StateFlag.IsPaused in s <==> useTweenHandle
    ensures StateFlag.IsPlaying in s <==> !useTweenHandle
  {
    if useTweenHandle then HandleStartPaused else NoHandleStart
  }

  /**
   * A consistent state: never playing and paused at once, never playing or
   * paused once completed, and only a completed tween awaits recycling.
   */
  predicate Consistent(s: set<StateFlag>)
  {
    !(StateFlag.IsPlaying in s && StateFlag.IsPaused in s)
    && ((StateFlag.IsPlaying in s || StateFlag.IsPaused in s) ==> StateFlag.IsCompleted !in s)
    && (StateFlag.RequiresRecycling in s ==> StateFlag.IsCompleted in s)
    && (StateFlag.JustEnded in s ==> StateFlag.IsCompleted in s)
  }

  /** Every start state is consistent, has exactly one of playing and paused and no end flag. */
  lemma StartStatesAreFresh()
    ensures forall s | s in {NoHandleStart, HandleStartPaused, HandleStartPlaying} ::
      Consistent(s) && (StateFlag.IsPlaying in s <==> StateFlag.IsPaused !in s)
      && StateFlag.IsCompleted !in s && StateFlag.JustEnded !in s && StateFlag.RequiresRecycling !in s
      && StateFlag.JustStarted in s
    ensures StateFlag.HasHandle !in NoHandleStart
    ensures StateFlag.HasHandle in HandleStartPaused && StateFlag.HasHandle in HandleStartPlaying
  {
  }

  /**
   * The state after applying `action`; None for `NoAction`, where the
   * tweeners throw NotImplementedException.
   */
  function ApplyAction(s: set<StateFlag>, action: HandleActionType): (r: Option<set<StateFlag>>)
    ensures r.None? <==> action == NoAction
    ensures action == Play ==> r.value == (if StateFlag.IsPaused in s && StateFlag.IsCompleted !in s
                                          then s - {StateFlag.IsPaused} + {StateFlag.IsPlaying} else s)
    ensures action == Pause ==> r.value == (if StateFlag.IsPlaying in s
                                           then s - {StateFlag.IsPlaying} + {StateFlag.IsPaused} else s)
    ensures action == Stop ==> r.value == (if StateFlag.IsPlaying in s || StateFlag.IsPaused in s
                                          then s - {StateFlag.IsPlaying, StateFlag.IsPaused} + {StateFlag.IsCompleted, StateFlag.JustEnded}
                                          else s)
    ensures action == Recycle ==> r.value == s - {StateFlag.IsPlaying, StateFlag.IsPaused, StateFlag.HasHandle}
                                              + {StateFlag.IsCompleted, StateFlag.RequiresRecycling}
    ensures action == Rewind ==> r.value == HandleStartPaused
    ensures action == Restart ==> r.value == HandleStartPlaying
  {
    match action
    case NoAction => None
    case Play =>
      if StateFlag.IsCompleted !in s && StateFlag.IsPaused in s
      then Some((s + {StateFlag.IsPlaying}) - {StateFlag.IsPaused}) else Some(s)
    case Pause =>
      if StateFlag.IsPlaying in s then Some((s - {StateFlag.IsPlaying}) + {StateFlag.IsPaused}) else Some(s)
    case Stop =>
      if StateFlag.IsPlaying in s || StateFlag.IsPaused in s
      then Some((s - {StateFlag.IsPlaying} - {StateFlag.IsPaused}) + {StateFlag.IsCompleted} + {StateFlag.JustEnded})
      else Some(s)
    case Recycle =>
      Some((s - {StateFlag.IsPaused} - {StateFlag.IsPlaying} - {StateFlag.HasHandle})
           + {StateFlag.IsCompleted} + {StateFlag.RequiresRecycling})
    case Rewind => Some(HandleStartPaused)
    case Restart => Some(HandleStartPlaying)
  }

  /** Every command keeps a consistent state consistent. */
  lemma ApplyActionKeepsConsistent(s: set<StateFlag>, action: HandleActionType)
    requires Consistent(s) && action != NoAction
    ensures Consistent(ApplyAction(s, action).value)
  {
  }

  /** Commands never touch the flags they do not name: JustStarted survives Play, Pause, Stop and Recycle. */
  lemma CommandsKeepJustStarted(s: set<StateFlag>, action: HandleActionType)
    requires action in {Play, Pause, Stop, Recycle}
    ensures StateFlag.JustStarted in ApplyAction(s, action).value <==> StateFlag.JustStarted in s
  {
  }

  /** Pausing a playing tween and playing it again gives back the state it had. */
  lemma PauseThenPlayRestores(s: set<StateFlag>)
    requires Consistent(s) && StateFlag.IsPlaying in s
    ensures ApplyAction(ApplyAction(s, Pause).value, Play).value == s
  {
  }

  /** Playing a paused tween and pausing it again gives back the state it had. */
  lemma PlayThenPauseRestores(s: set<StateFlag>)
    requires Consistent(s) && StateFlag.IsPaused in s
    ensures ApplyAction(ApplyAction(s, Play).value, Pause).value == s
  {
  }

  /** Play, Pause, Stop and Recycle are idempotent. */
  lemma CommandsIdempotent(s: set<StateFlag>, action: HandleActionType)
    requires Consistent(s) && action in {Play, Pause, Stop, Recycle, Rewind, Restart}
    ensures ApplyAction(ApplyAction(s, action).value, action) == ApplyAction(s, action)
  {
    var r := ApplyAction(s, action).value;
    if action == Stop && (StateFlag.IsPlaying in s || StateFlag.IsPaused in s) {
      assert StateFlag.IsPlaying !in r && StateFlag.IsPaused !in r;
    } else if action == Play && StateFlag.IsPaused in s && StateFlag.IsCompleted !in s {
      assert StateFlag.IsPaused !in r;
    } else if action == Pause && StateFlag.IsPlaying in s {
      assert StateFlag.IsPlaying !in r;
    } else if action == Recycle {
      var removed := {StateFlag.IsPlaying, StateFlag.IsPaused, StateFlag.HasHandle};
      var added := {StateFlag.IsCompleted, StateFlag.RequiresRecycling};
      assert r - removed + added == r;
    }
  }

  /** A completed tween ignores Play, Pause and Stop; only Rewind, Restart or Recycle move it. */
  lemma CompletedIgnoresPlayPauseStop(s: set<StateFlag>, action: HandleActionType)
    requires Consistent(s) && StateFlag.IsCompleted in s && action in {Play, Pause, Stop}
    ensures ApplyAction(s, action).value == s
  {
  }

  /** After Recycle the tween is finished for good unless rewound or restarted, and carries no handle. */
  lemma RecycleIsFinal(s: set<StateFlag>, action: HandleActionType)
    requires action in {Play, Pause, Stop, Recycle}
    ensures var r := ApplyAction(s, Recycle).value;
      StateFlag.IsCompleted in r && StateFlag.RequiresRecycling in r && StateFlag.HasHandle !in r
      && StateFlag.IsPlaying !in r && StateFlag.IsPaused !in r
      && ApplyAction(r, action).value == r
  {
  }

  /** Stop marks an active tween as just ended; Recycle never does, so it fires no completion. */
  lemma StopEndsRecycleDoesNot(s: set<StateFlag>)
    requires StateFlag.JustEnded !in s
    ensures StateFlag.JustEnded in ApplyAction(s, Stop).value <==> (StateFlag.IsPlaying in s || StateFlag.IsPaused in s)
    ensures StateFlag.JustEnded !in ApplyAction(s, Recycle).value
  {
  }
}
