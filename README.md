# JTween core in Dafny

JTween is a Unity tween engine. A tween animates the position, rotation or
scale of a `Transform` over time. The engine keeps its tweens in parallel
growable arrays (`FastList<T>`). Each slot has a state flag set, per-channel
clocks (`TweenLifetime`) and endpoint records (`TweenFloat3`, `TweenRotation`).
A game drives the schedulers once per frame:

- `Update` drains the command queue that `TweenHandle`s fill (Play, Pause,
  Stop, Recycle, Rewind, Restart), captures start events and schedules jobs
  over native copies of the clocks (`ProcessTweenJob` for slots,
  `ProcessBatchJob` for batches).
- `LateUpdate` copies the jobs' results back, captures completion events,
  returns handles to the pool and removes recycled slots. The single tweener removes runs of recycled slots;
  the batch tweeners compact whole batches, lowering the `startIndex` of
  every later batch.

Above the schedulers sit the aggregates: `TweenSet` fans a command out to its
members and fires its start and completion events once each. `TweenSequence`
plays its members one after the other behind a cursor. Both are pooled.

This project models that core:

| module (file) | models |
|---|---|
| `TweenTypes` (`types.dfy`) | the flag enums as Dafny datatypes, flag sets as `set<...>` |
| `TweenValues` (`values.dfy`) | `TweenFloat1..4`, `TweenPosition`, `TweenScale` and their lerp with reversal |
| `Lifetime`, `LifetimeProperties` | the `TweenLifetime` clock: `Update`, `GetProgress`, `Restart`, `GetEase`, loop behaviour |
| `TransformState`, `BatchState` | the slot and batch records with their flag predicates, `GetRotateMode`, `IncludesIndex` |
| `Commands` | the start-state constants and the command transition table of the drains |
| `FastLists` | `FastList<T>` as a class over an array with a separate length |
| `Handles` | `TweenHandle` and the handle pool of `TweenerBase` |
| `TransformSlots`, `SinglePasses`, `RecyclePlans`, `SingleTweener` | `SingleTransformTweener`: slot creation, drain, start pass, late pass, the range-coalescing recycle pass |
| `BatchPasses`, `BatchTweener` | the newer `BatchTransformTweener`: batch creation, command propagation, compaction |
| `LegacyCompaction`, `LegacyBatchTweener` | the older `BatchTransformTweener`: creation overloads, batch clocks, sort and compaction |
| `Jobs` | `ProcessTweenJob.Execute` and `ProcessBatchJob.Execute` as per-index functions and loops |
| `Collections` | `TweenCollectionBase`, `TweenSet`, `TweenSequence` and the set and sequence pools |
| `ArrayExtensions` | `Populate` and the position, rotation and scale array fillers |

State that the source mutates in place is a Dafny `class`: `FastList`,
`TweenHandle`, the tweener base, the three schedulers, the jobs, the
collections and the pools. Their methods are proved against value-level
functions (`DrainFrom`, `StartPass`, `LatePass`, `BatchDrainFrom`,
`Compaction`, `ExecuteSlot`, ...). The properties of the source are then
proved about those functions as lemmas. Structs that the source copies,
updates and writes back (`TweenLifetime`, the state records) are datatypes
whose update functions return the new value.

Time, progress and coordinates are `real`. Loop counts are C# `short`s, and
`uint` batch indices wrap modulo 2^32 where the source's arithmetic would.
A `Transform` is known only by its identity. Quaternion math and the
transcendental ease curves are function parameters.

## Model

| member | source | states |
|---|---|---|
| `TweenValues.TweenFloat1.Lerp` | Unity/Assets/JCMG/JTween/Core/TweenFloat1.cs:11-16 | ease 0 gives the start endpoint and ease 1 the end one, swapped when reversed; equal endpoints give that value for any ease |
| `TweenValues.ReversedLerpMirrors` | Unity/Assets/JCMG/JTween/Core/TweenFloat1.cs:11-16 | playing reversed at ease e equals playing forwards at 1 - e, for every real e |
| `TweenValues.TweenFloat2.Lerp` | Unity/Assets/JCMG/JTween/Core/TweenFloat2.cs:11-16 | each component is the one-dimensional lerp of that component alone; the endpoints are hit at ease 0 and 1 and swap when reversed |
| `TweenValues.ReversedLerp2Mirrors` | Unity/Assets/JCMG/JTween/Core/TweenFloat2.cs:11-16 | reversed at e equals forwards at 1 - e |
| `TweenValues.TweenFloat3.Lerp` | Unity/Assets/JCMG/JTween/Core/TweenFloat3.cs:11-16 | each component is the one-dimensional lerp of that component alone; the endpoints are hit at ease 0 and 1 and swap when reversed |
| `TweenValues.ReversedLerp3Mirrors` | Unity/Assets/JCMG/JTween/Core/TweenFloat3.cs:11-16 | reversed at e equals forwards at 1 - e |
| `TweenValues.TweenFloat4.Lerp` | Unity/Assets/JCMG/JTween/Core/TweenFloat4.cs:11-16 | each of the four components is the one-dimensional lerp of that component; endpoints at ease 0 and 1, swapped when reversed |
| `TweenValues.ReversedLerp4Mirrors` | Unity/Assets/JCMG/JTween/Core/TweenFloat4.cs:11-16 | reversed at e equals forwards at 1 - e |
| `TweenValues.TweenPosition.GetPosition` | Unity/Assets/JCMG/JTween/Core/TweenPosition.cs:11-16 | computes the same value as `TweenFloat3.Lerp` over the same endpoints, so it hits and swaps the endpoints the same way |
| `TweenValues.ReversedPositionMirrors` | Unity/Assets/JCMG/JTween/Core/TweenPosition.cs:11-16 | reversed at e equals forwards at 1 - e |
| `TweenValues.TweenScale.GetScale` | Unity/Assets/JCMG/JTween/Core/TweenScale.cs:11-16 | computes the same value as `TweenFloat3.Lerp` over the same endpoints |
| `TweenValues.ReversedScaleMirrors` | Unity/Assets/JCMG/JTween/Core/TweenScale.cs:11-16 | reversed at e equals forwards at 1 - e |
| `Lifetime.TweenLifetime.GetProgress` | JTween/Core/TweenLifetime.cs:49-57 | progress never exceeds 1; for a clock within its range it is at least 0 and it is 1 exactly when `current` has reached `duration` and is not within the epsilon of 0; without looping it never decreases under Update by dt >= 0 (`LifetimeProperties.NoLoopProgressNeverDecreases`, `LifetimeProperties.NoLoopProgressNeverDecreasesOverFrames`) |
| `Lifetime.TweenLifetime.Restart` | JTween/Core/TweenLifetime.cs:59-64 | the restarted clock is at time 0 and reports progress 0, its loop count is back to the original one, it runs forward again, and its duration, ease, loop kind and original loop count are unchanged |
| `Lifetime.ClampLoopCount` | Unity/Assets/JCMG/JTween/JobRunners/SingleTransformTweener.cs:51-52 | the stored loop count lies in [-1, 32767] and equals the requested one when that is already in range |
| `Lifetime.ShortCast` | Unity/Assets/JCMG/JTween/JobRunners/BatchTransformTweener.cs:52 | the unchecked `(short)` cast: a short congruent to the input modulo 2^16, the input itself when it is a short |
| `Lifetime.NewLifetime` | Unity/Assets/JCMG/JTween/JobRunners/SingleTransformTweener.cs:46-53 | a new channel clock has a non-negative duration, starts in range at progress 0, forward, with equal current and original loop counts in [-1, 32767] and the requested ease and loop kinds |
| `Lifetime.ProgressQuotient` | JTween/Core/TweenLifetime.cs:49-57 | `current / duration` lies in [0, 1] for a clock in range, and reaches 1 only at `current == duration` |
| `Lifetime.AdvancedKeepsProgressDefined` | JTween/Core/TweenLifetime.cs:20-22 | advancing by a non-negative step keeps progress computable |
| `LifetimeProperties.InRangeHasProgress` | JTween/Core/TweenLifetime.cs:49-57 | a clock between 0 and its duration never divides 0 by 0 in GetProgress |
| `LifetimeProperties.UpdatePreservesInRange` | JTween/Core/TweenLifetime.cs:20-47 | Update with dt >= 0 keeps `current` between 0 and `duration` and never changes duration, ease, loop kind or original loop count |
| `LifetimeProperties.NoLoopOnlyAdvances` | JTween/Core/TweenLifetime.cs:20-26 | with LoopType.None, Update only sets `current` to min(current + dt, duration) |
| `LifetimeProperties.NoLoopProgressNeverDecreases` | JTween/Core/TweenLifetime.cs:20-57 | with LoopType.None and a clock in range, one Update by dt >= 0 never lowers GetProgress |
| `LifetimeProperties.Frames` | JTween/Core/TweenLifetime.cs:20-47 | one Update per step of a sequence of non-negative frame times keeps the clock in range and keeps its configuration |
| `LifetimeProperties.NoLoopProgressNeverDecreasesOverFrames` | JTween/Core/TweenLifetime.cs:20-57 | with LoopType.None, over any sequence of non-negative frame times, the progress after every prefix of the frames is at most the progress after all of them |
| `LifetimeProperties.UnfinishedPassOnlyAdvances` | JTween/Core/TweenLifetime.cs:20-26 | a pass that stays below the duration is only advanced, whatever the loop kind |
| `LifetimeProperties.Steps` | JTween/Core/TweenLifetime.cs:20-47 | any number of frames of dt >= 0 keep the clock in range and keep its configuration |
| `LifetimeProperties.ZeroDurationNeverProgresses` | JTween/Core/TweenLifetime.cs:20-57 | a zero-duration clock stays at time 0 with progress 0 for ever |
| `LifetimeProperties.RestartStep` | JTween/Core/TweenLifetime.cs:20-37 | one whole-duration frame of a Restart loop: a positive count resets the clock and drops by one, -1 resets without counting, 0 leaves the clock at the end |
| `LifetimeProperties.RestartLoopRunsCountPlusOnePasses` | JTween/Core/TweenLifetime.cs:20-37 | with Restart and loopCount n, the clock restarts n times and finishes on pass n + 1 |
| `LifetimeProperties.ShorterThanEpsilonNeverProgresses` | JTween/Core/TweenLifetime.cs:49-57 | a clock no longer than the epsilon reports progress 0 at every time |
| `LifetimeProperties.FinishedStaysFinished` | JTween/Core/TweenLifetime.cs:20-57 | a finished pass with no loops left reports progress 1 and Update leaves it unchanged |
| `LifetimeProperties.InfiniteRestartNeverFinishes` | JTween/Core/TweenLifetime.cs:20-37 | with loopCount -1 the clock is back at 0 after every whole-duration frame and never reports progress 1 |
| `LifetimeProperties.PingPongStep` | JTween/Core/TweenLifetime.cs:20-47 | one whole-duration PingPong frame flips the direction, and spends a loop only when the flip lands on reversed |
| `LifetimeProperties.PingPongRoundTrips` | JTween/Core/TweenLifetime.cs:38-45 | each forward-and-back round of PingPong spends exactly one loop |
| `LifetimeProperties.PingPongFinishesReversed` | JTween/Core/TweenLifetime.cs:20-47 | PingPong with loopCount n runs 2n passes and finishes at the end of a reverse pass |
| `LifetimeProperties.RestartAbsorbsUpdate` | JTween/Core/TweenLifetime.cs:59-64 | Restart forgets whatever Update did, and restarting twice is restarting once |
| `LifetimeProperties.OutBounceEndpoints` | JTween/Core/TweenLifetime.cs:201-219 | the out-bounce curve is 0 at time 0 and 1 at the duration |
| `LifetimeProperties.EaseEndpoints` | JTween/Core/TweenLifetime.cs:71-153 | every linear, polynomial, back and bounce ease is 0 at time 0 and 1 at the duration |
| `LifetimeProperties.OutEaseReflectsInEase` | JTween/Core/TweenLifetime.cs:160-410 | each polynomial out-ease (quadratic, cubic, quart, quint) is its in-ease played backwards |
| `TransformState.TweenTransformState.GetRotateMode` | Unity/Assets/JCMG/JTween/Core/TweenTransformState.cs:91-108 | X when RotateX is set, else Y when RotateY is, else Z when RotateZ is, else XYZ, each as an if-and-only-if |
| `TransformState.GetTweenSpaceTypeFromRotateMode` | Unity/Assets/JCMG/JTween/Tools/JTweenTools.cs:9-31 | every rotate mode maps to one of the four rotate flags |
| `TransformState.RotateFlagMappingInjective` | Unity/Assets/JCMG/JTween/Tools/JTweenTools.cs:14-25 | distinct rotate modes map to distinct flags |
| `TransformState.RotateModeRoundTrip` | Unity/Assets/JCMG/JTween/Core/TweenTransformState.cs:91-108 | reading the mode back from a slot created with the mapped flag gives the original mode, whatever else the slot carries |
| `Commands.StartState` | Unity/Assets/JCMG/JTween/JobRunners/SingleTransformTweener.cs:35-42 | a new tween has just started; it carries a handle and waits paused exactly when a handle was requested, and plays at once otherwise |
| `Commands.StartStatesAreFresh` | Unity/Assets/JCMG/JTween/JobRunners/TweenerBase.cs:38-44 | each start constant is consistent, has exactly one of playing and paused, no end flag, and a handle flag exactly in the two handle states |
| `Commands.ApplyAction` | Unity/Assets/JCMG/JTween/JobRunners/SingleTransformTweener.cs:336-379 | the command table: Play only from paused and not completed, Pause only from playing, Stop only from playing or paused, Recycle always, Rewind and Restart to their start states, and no state for None (the throw) |
| `Commands.ApplyActionKeepsConsistent` | Unity/Assets/JCMG/JTween/JobRunners/SingleTransformTweener.cs:336-379 | every command keeps a consistent state consistent |
| `Commands.CommandsKeepJustStarted` | Unity/Assets/JCMG/JTween/JobRunners/SingleTransformTweener.cs:338-367 | Play, Pause, Stop and Recycle never touch the just-started flag |
| `Commands.PauseThenPlayRestores` | Unity/Assets/JCMG/JTween/JobRunners/SingleTransformTweener.cs:338-351 | pausing a playing tween and playing it again restores its state |
| `Commands.PlayThenPauseRestores` | Unity/Assets/JCMG/JTween/JobRunners/SingleTransformTweener.cs:338-351 | playing a paused tween and pausing it again restores its state |
| `Commands.CommandsIdempotent` | Unity/Assets/JCMG/JTween/JobRunners/SingleTransformTweener.cs:336-379 | every command applied twice has the effect of applying it once |
| `Commands.CompletedIgnoresPlayPauseStop` | Unity/Assets/JCMG/JTween/JobRunners/SingleTransformTweener.cs:338-360 | a completed tween ignores Play, Pause and Stop |
| `Commands.RecycleIsFinal` | Unity/Assets/JCMG/JTween/JobRunners/SingleTransformTweener.cs:361-367 | a recycled tween is completed, awaits recycling, has no handle, and Play, Pause, Stop or Recycle leave it so |
| `Commands.StopEndsRecycleDoesNot` | Unity/Assets/JCMG/JTween/JobRunners/SingleTransformTweener.cs:352-367 | Stop marks a tween as just ended exactly when it was playing or paused; Recycle never does, so it fires no completion |
| `BatchState.UintSum` | Unity/Assets/JCMG/JTween/Core/TweenBatch.cs:11-14 | `startIndex + length` as a uint sum: exact below 2^32, wrapped above |
| `BatchState.UintSub` | JTween/JobRunners/BatchTransformTweener.cs:698-703 | `startIndex -= length` on uints: exact when no borrow, wrapped otherwise |
| `BatchState.UintCast` | JTween/JobRunners/BatchTransformTweener.cs:53-58 | `(uint)length`: a non-negative `int` is kept, a negative one wraps to itself plus 2^32 |
| `BatchState.IncludesIndexIsRange` | Unity/Assets/JCMG/JTween/Core/TweenTransformBatchState.cs:46-49 | without overflow, IncludesIndex holds exactly for startIndex <= i < startIndex + length |
| `BatchState.OverflowingBatchIncludesNothing` | Unity/Assets/JCMG/JTween/Core/TweenBatch.cs:11-14 | a batch reaching past 2^32 includes no index, because the sum wraps |
| `BatchState.IncludesIndexBounds` | Unity/Assets/JCMG/JTween/Core/TweenBatch.cs:7-14 | an empty batch includes nothing, the index one past the end and negative indices are never included, and startIndex is included exactly when the batch is non-empty |
| `BatchState.AdjacentBatchesDisjoint` | Unity/Assets/JCMG/JTween/Core/TweenTransformBatchState.cs:46-49 | a batch starting where another ends shares no index with it |
| `BatchState.IncludesIndexIgnoresCompletion` | Unity/Assets/JCMG/JTween/Core/TweenBatch.cs:9-14 | completion does not change which indices a batch covers |
| `FastLists.FirstIndex` | Unity/Assets/JCMG/JTween/Collections/FastList.cs:145-159 | the least index holding the item, or -1 exactly when the item is absent |
| `FastLists.RemoveFirstTakesOneCopy` | Unity/Assets/JCMG/JTween/Collections/FastList.cs:124-143 | removing by value takes exactly one copy of a present item out, keeps the elements before it, shortens the list by one, and changes nothing when the item is absent |
| `FastLists.GrowthTarget` | Unity/Assets/JCMG/JTween/Collections/FastList.cs:177-197 | the capacity AddRange grows to, corrected: at least twice the old capacity and large enough for the new contents |
| `FastLists.AddGrowthTarget` | Unity/Assets/JCMG/JTween/Collections/FastList.cs:98-106 | a full buffer grows strictly, to at least 32 |
| `FastLists.AddRangeAsWrittenOverruns` | Unity/Assets/JCMG/JTween/Collections/FastList.cs:177-186 | as written, appending 20 elements to a full list of capacity 5 grows it to 20 and then copies past the end, where the corrected target is 25 |
| `FastLists.AddRangeAsWrittenFitsIff` | Unity/Assets/JCMG/JTween/Collections/FastList.cs:177-197 | as written, AddRange stays in bounds exactly when the new contents fit in twice the old capacity or the list was empty |
| `FastLists.RemoveRangeAsWrittenOverruns` | Unity/Assets/JCMG/JTween/Collections/FastList.cs:199-207 | as written, removing elements 5..9 of a full buffer of 20 passes the asserts and then copies from beyond the buffer |
| `FastLists.RemoveRangeAsWrittenContents` | Unity/Assets/JCMG/JTween/Collections/FastList.cs:199-207 | where the source's copy stays in bounds, the live prefix it leaves is the intended contents with the range removed |
| `FastLists.RemoveRangeAsWrittenThrowsIff` | Unity/Assets/JCMG/JTween/Collections/FastList.cs:199-207 | for a range inside the live part, the list's `RemoveRange` throws exactly when the start plus the live length exceeds the capacity |
| `FastLists.TweenerListsAsWrittenThrow` | Unity/Assets/JCMG/JTween/Collections/FastList.cs:177-207 | on the tweeners' full lists of capacity 10000, removing the second of two 5000-slot batches, or any one slot after the first, throws; so does appending 20000 elements to a list holding one |
| `FastLists.FastList.Empty` | Unity/Assets/JCMG/JTween/Collections/FastList.cs:27 | a new list has no buffer and no contents |
| `FastLists.FastList.WithCapacity` | Unity/Assets/JCMG/JTween/Collections/FastList.cs:29-32 | a new list with a non-negative capacity has an empty buffer of that size; a negative capacity throws (no list) |
| `FastLists.FastList.SetCapacity` | Unity/Assets/JCMG/JTween/Collections/FastList.cs:34-57 | allocates a first buffer, and throws exactly when there is no buffer yet and the capacity is negative; grows to a larger capacity keeping the contents, releases for a capacity <= 0, and leaves a smaller positive capacity alone |
| `FastLists.FastList.Contains` | Unity/Assets/JCMG/JTween/Collections/FastList.cs:59-80 | true exactly when the item is among the contents |
| `FastLists.FastList.Trim` | Unity/Assets/JCMG/JTween/Collections/FastList.cs:82-85 | keeps the contents and never replaces the buffer of a non-empty list; an empty list with a buffer is released |
| `FastLists.FastList.Clear` | Unity/Assets/JCMG/JTween/Collections/FastList.cs:87-90 | empties the list and keeps the buffer |
| `FastLists.FastList.Release` | Unity/Assets/JCMG/JTween/Collections/FastList.cs:92-96 | empties the list and drops the buffer |
| `FastLists.FastList.Add` | Unity/Assets/JCMG/JTween/Collections/FastList.cs:98-106 | appends the item after the old contents; a missing buffer becomes 32 long, a full one grows to max(2 * capacity, 32), otherwise the buffer is kept |
| `FastLists.FastList.PopLast` | Unity/Assets/JCMG/JTween/Collections/FastList.cs:108-122 | returns and removes the last element, or returns the default value of an empty list and leaves it empty |
| `FastLists.FastList.Remove` | Unity/Assets/JCMG/JTween/Collections/FastList.cs:124-143 | removes only the first element equal to the item, keeping the order of the rest |
| `FastLists.FastList.RemoveFirstAt` | Unity/Assets/JCMG/JTween/Collections/FastList.cs:132-141 | the found branch of Remove: removing the element at the first match is removing by value |
| `FastLists.FastList.IndexOf` | Unity/Assets/JCMG/JTween/Collections/FastList.cs:145-159 | returns the least index holding the item, or -1 |
| `FastLists.FastList.RemoveAt` | Unity/Assets/JCMG/JTween/Collections/FastList.cs:161-169 | always decrements the length; an index inside the list removes that element and shifts the later ones left in order (not a swap with the last); any other index throws after the decrement and leaves the buffer as it was, except -1 on an empty list, which leaves length -1 without throwing |
| `FastLists.FastList.ResortArray` | Unity/Assets/JCMG/JTween/Collections/FastList.cs:171-175 | moves the elements after the index one place down and leaves the rest of the buffer alone |
| `FastLists.FastList.AddRange` | Unity/Assets/JCMG/JTween/Collections/FastList.cs:177-186 | appends all items in order, growing a missing buffer to their count and a too-small one to the corrected growth target |
| `FastLists.FastList.AddRangeSlice` | Unity/Assets/JCMG/JTween/Collections/FastList.cs:188-197 | appends `items[start .. start + n)` in order, growing the buffer the same way; throws exactly when the start or count is negative or the slice runs past the items, leaving the contents as they were (a missing buffer is still allocated first) |
| `FastLists.FastList.RemoveRange` | Unity/Assets/JCMG/JTween/Collections/FastList.cs:199-207 | corrected: removes `n` elements from `index`, keeping the buffer and the order of the rest |
| `FastLists.AddRangeScenario` | Unity/Assets/JCMG/JTween/Editor/Tests/FastListTests.cs:17-38 | three appends of five ones give fifteen ones with capacities 5, 10 and 20 |
| `FastLists.RemoveRangeScenario` | Unity/Assets/JCMG/JTween/Editor/Tests/FastListTests.cs:41-67 | removing the middle five of fifteen leaves ten twos |
| `Handles.QueuedEntry` | Unity/Assets/JCMG/JTween/JobRunners/SingleTransformTweener.cs:301-316 | a listed handle gives one queue entry with its command and the first index holding it; an unlisted handle gives none |
| `Handles.TweenHandle.constructor` | Unity/Assets/JCMG/JTween/Core/TweenHandle.cs:5-20 | a new handle is bound to its tweener, with no listeners, no command and no state flags |
| `Handles.TweenHandle.Issue` | Unity/Assets/JCMG/JTween/Core/TweenHandle.cs:57-91 | a command records its kind on the handle and queues it once with the owner; the state is untouched |
| `Handles.TweenHandle.Play` | Unity/Assets/JCMG/JTween/Core/TweenHandle.cs:57-61 | records Play and queues it with the owner, leaving the state alone |
| `Handles.TweenHandle.Pause` | Unity/Assets/JCMG/JTween/Core/TweenHandle.cs:63-67 | records Pause and queues it, leaving the state alone |
| `Handles.TweenHandle.Rewind` | Unity/Assets/JCMG/JTween/Core/TweenHandle.cs:69-73 | records Rewind and queues it, leaving the state alone |
| `Handles.TweenHandle.Restart` | Unity/Assets/JCMG/JTween/Core/TweenHandle.cs:75-79 | records Restart and queues it, leaving the state alone |
| `Handles.TweenHandle.Stop` | Unity/Assets/JCMG/JTween/Core/TweenHandle.cs:81-85 | records Stop and queues it, leaving the state alone |
| `Handles.TweenHandle.Recycle` | Unity/Assets/JCMG/JTween/Core/TweenHandle.cs:87-91 | records Recycle and queues it, leaving the state alone |
| `Handles.TweenHandle.AddOnStartedListener` | Unity/Assets/JCMG/JTween/Core/TweenHandle.cs:93-96 | appends a started listener, keeping the earlier ones |
| `Handles.TweenHandle.AddOnCompletedListener` | Unity/Assets/JCMG/JTween/Core/TweenHandle.cs:98-101 | appends a completed listener, keeping the earlier ones |
| `Handles.TweenHandle.Reset` | Unity/Assets/JCMG/JTween/Core/TweenHandle.cs:103-108 | forgets the last command and both listener lists; the state is not in its frame, so it is kept |
| `Handles.TweenerBase.constructor` | Unity/Assets/JCMG/JTween/JobRunners/TweenerBase.cs:13-27 | a new tweener has an empty pool, empty queues, no listed handles and no job scheduled |
| `Handles.TweenerBase.Setup` | Unity/Assets/JCMG/JTween/JobRunners/TweenerBase.cs:57-64 | adds DEFAULT_FAST_LIST_SIZE fresh, blank handles owned by this tweener to the back of the pool |
| `Handles.TweenerBase.GetNextAvailableTweenHandle` | Unity/Assets/JCMG/JTween/JobRunners/TweenerBase.cs:83-99 | with a non-empty pool, returns the front handle reset and removes it from the pool, its state kept; otherwise returns a fresh handle of this tweener and the pool stays empty |
| `Handles.TweenerBase.AttachHandle` | Unity/Assets/JCMG/JTween/JobRunners/SingleTransformTweener.cs:56-82 | a handle is taken only when one is requested or a callback is given; it gets the start state and exactly the given callbacks |
| `Handles.TweenerBase.QueueTweenHandleAction` | Unity/Assets/JCMG/JTween/JobRunners/SingleTransformTweener.cs:301-316 | the queue grows by the handle's entry, or not at all for an unlisted handle |
| `Handles.TwoCommandsBothQueued` | Unity/Assets/JCMG/JTween/Core/TweenHandle.cs:57-67 | Play then Pause on one handle queues both commands in order, though the handle remembers only Pause |
| `RecyclePlans.PlanFitsWeakens` | Unity/Assets/JCMG/JTween/JobRunners/SingleTransformTweener.cs:535-544 | a plan whose removals fit below one bound fits below any larger bound |
| `RecyclePlans.ApplyRemovals` | Unity/Assets/JCMG/JTween/JobRunners/SingleTransformTweener.cs:535-544 | applying the planned RemoveRange calls in order shortens a list by exactly their total length |
| `RecyclePlans.PlanFromFits` | Unity/Assets/JCMG/JTween/JobRunners/SingleTransformTweener.cs:498-551 | over distinct non-negative marked indices visited highest first, every RemoveRange the pass issues stays inside the list it is applied to |
| `RecyclePlans.RecyclePlanFits` | Unity/Assets/JCMG/JTween/JobRunners/SingleTransformTweener.cs:493-551 | the plan for the marked slots of an n-slot list can be applied to it |
| `RecyclePlans.Recycled` | Unity/Assets/JCMG/JTween/JobRunners/SingleTransformTweener.cs:482-554 | every slot list loses exactly the total length of the planned ranges |
| `RecyclePlans.RecycleWindow` | Unity/Assets/JCMG/JTween/JobRunners/SingleTransformTweener.cs:493-498 | one frame visits the first DEFAULT_RECYCLE_AMOUNT_PER_FRAME + 1 marked slots, highest first, and nothing else |
| `RecyclePlans.ApplyRemovalsSubMultiset` | Unity/Assets/JCMG/JTween/JobRunners/SingleTransformTweener.cs:535-544 | the removals only remove: what is left is a sub-multiset of the list |
| `RecyclePlans.RecycledKeepsEntries` | Unity/Assets/JCMG/JTween/JobRunners/SingleTransformTweener.cs:482-554 | every entry left after the recycle pass was in the list before it |
| `RecyclePlans.PlanStopsBelowRunTop` | Unity/Assets/JCMG/JTween/JobRunners/SingleTransformTweener.cs:498-551 | every planned range starts at slot 0 or ends just below a marked index, so the top of each run stays and the slot below the run goes |
| `RecyclePlans.RecyclePlanStopsBelowRunTop` | Unity/Assets/JCMG/JTween/JobRunners/SingleTransformTweener.cs:498-551 | the same for the whole pass: the range removed is one slot lower than the run, except when clamped at 0 |
| `RecyclePlans.LoneCandidateKept` | Unity/Assets/JCMG/JTween/JobRunners/SingleTransformTweener.cs:498-551 | a single marked slot is never removed |
| `RecyclePlans.RunOfTwoRemovesOneLower` | Unity/Assets/JCMG/JTween/JobRunners/SingleTransformTweener.cs:498-551 | slots 6 and 5 marked: slots 4 and 5 are removed and slot 6 stays |
| `RecyclePlans.RunDownToZeroRemovedExactly` | Unity/Assets/JCMG/JTween/JobRunners/SingleTransformTweener.cs:535 | a run reaching slot 0 is removed exactly, thanks to the clamp at 0 |
| `RecyclePlans.BreakingIndexDropped` | Unity/Assets/JCMG/JTween/JobRunners/SingleTransformTweener.cs:498-551 | slots 9, 5 and 4 marked: only slot 8 is removed; 5 is dropped for the frame and the run opened by 4 is never closed |
| `TransformSlots.MoveState` | Unity/Assets/JCMG/JTween/JobRunners/SingleTransformTweener.cs:35-42 | a Move slot starts in its start state with only the movement channel and the movement space flag of the requested space |
| `TransformSlots.ScaleState` | Unity/Assets/JCMG/JTween/JobRunners/SingleTransformTweener.cs:102-109 | a Scale slot starts in its start state with only the scaling channel and no space flag |
| `TransformSlots.SlotLists.RemoveRange` | Unity/Assets/JCMG/JTween/JobRunners/SingleTransformTweener.cs:536-544 | RemoveRange on all nine lists keeps them aligned and shortens each by the length |
| `TransformSlots.SlotLists.ApplyPlan` | Unity/Assets/JCMG/JTween/JobRunners/SingleTransformTweener.cs:535-544 | applying a plan to all nine lists keeps them aligned and shortens each by the plan's total length |
| `TransformSlots.SlotLists.Recycle` | Unity/Assets/JCMG/JTween/JobRunners/SingleTransformTweener.cs:482-554 | the recycle pass keeps the nine lists aligned |
| `TransformSlots.ApplyPlanStep` | Unity/Assets/JCMG/JTween/JobRunners/SingleTransformTweener.cs:498-551 | performing a plan's first removal and then the rest is performing the plan |
| `SinglePasses.DrainStep` | Unity/Assets/JCMG/JTween/JobRunners/SingleTransformTweener.cs:331-388 | one queued command: an out-of-range index changes nothing; NoAction or a slot without a handle throws; otherwise the slot takes the command table's state, its handle takes that state, Rewind and Restart restart its three clocks, and every other slot is untouched |
| `SinglePasses.DrainFrom` | Unity/Assets/JCMG/JTween/JobRunners/SingleTransformTweener.cs:329-389 | draining the queue keeps the slot lists aligned and the set of handles with a state |
| `SinglePasses.DrainSucceedsIff` | Unity/Assets/JCMG/JTween/JobRunners/SingleTransformTweener.cs:329-389 | the drain completes exactly when no queued command throws |
| `SinglePasses.DrainKeepsConsistent` | Unity/Assets/JCMG/JTween/JobRunners/SingleTransformTweener.cs:329-389 | the drain keeps every slot's state consistent |
| `SinglePasses.DrainLeavesUnnamedSlots` | Unity/Assets/JCMG/JTween/JobRunners/SingleTransformTweener.cs:329-389 | a slot no queued command names keeps its state and its three clocks |
| `SinglePasses.StartPass` | Unity/Assets/JCMG/JTween/JobRunners/SingleTransformTweener.cs:392-406 | the start capture changes no clock and keeps the lists aligned |
| `SinglePasses.StartPassEffect` | Unity/Assets/JCMG/JTween/JobRunners/SingleTransformTweener.cs:392-406 | exactly the playing, just-started slots lose JustStarted; the handles queued for Started are exactly theirs, at most one per slot |
| `SinglePasses.UpdateOutcome` | Unity/Assets/JCMG/JTween/JobRunners/SingleTransformTweener.cs:318-426 | with no slots nothing happens; otherwise the frame completes exactly when no queued command throws |
| `SinglePasses.UpdateSettlesStarts` | Unity/Assets/JCMG/JTween/JobRunners/SingleTransformTweener.cs:329-406 | after UpdateTweens every slot is still consistent and none is left playing and just started |
| `SinglePasses.LatePass` | Unity/Assets/JCMG/JTween/JobRunners/SingleTransformTweener.cs:447-475 | the late pass changes no clock and keeps the lists aligned |
| `SinglePasses.LatePassStates` | Unity/Assets/JCMG/JTween/JobRunners/SingleTransformTweener.cs:447-475 | completed slots lose JustEnded and the others keep their state; the handles queued for Completed are exactly those of just-ended slots |
| `SinglePasses.LatePassSyncsHandles` | Unity/Assets/JCMG/JTween/JobRunners/SingleTransformTweener.cs:447-475 | afterwards every handle carries the state of the first slot that lists it |
| `SinglePasses.LatePassMarks` | Unity/Assets/JCMG/JTween/JobRunners/SingleTransformTweener.cs:447-475 | the marked slots are distinct, listed from the highest down, in range, at most 501, and only appended |
| `SinglePasses.LateStepMarks` | Unity/Assets/JCMG/JTween/JobRunners/SingleTransformTweener.cs:470-473 | one slot adds at most one mark, below the earlier ones, and none once more than 500 are marked |
| `SinglePasses.LatePassMarksRecyclable` | Unity/Assets/JCMG/JTween/JobRunners/SingleTransformTweener.cs:456-473 | every marked slot is completed and awaiting recycling |
| `SinglePasses.LatePassClearsJustEnded` | Unity/Assets/JCMG/JTween/JobRunners/SingleTransformTweener.cs:447-475 | on consistent slots the late pass leaves no slot just ended |
| `SinglePasses.LatePassEndsListed` | Unity/Assets/JCMG/JTween/JobRunners/SingleTransformTweener.cs:460-468 | the late pass over slots k-1 .. 0 queues for Completed only handles that some slot lists |
| `SinglePasses.LateOutcomeEndsListed` | Unity/Assets/JCMG/JTween/JobRunners/SingleTransformTweener.cs:447-475 | every handle the whole late pass queues for Completed is listed in a slot |
| `SinglePasses.LateOutcome` | Unity/Assets/JCMG/JTween/JobRunners/SingleTransformTweener.cs:447-475 | the late pass of a frame marks distinct in-range slots, highest first, at most 501 |
| `SingleTweener.RotateState` | Unity/Assets/JCMG/JTween/JobRunners/SingleTransformTweener.cs:167-174 | a Rotate slot starts in its start state with only the rotation channel, the rotation space flag of the requested space, and reads back as XYZ rotation |
| `SingleTweener.RotateOnAxisState` | Unity/Assets/JCMG/JTween/JobRunners/SingleTransformTweener.cs:240-250 | a RotateOnAxis slot starts in its start state with only the rotation channel and reads back as the requested axis |
| `SingleTweener.SingleTransformTweener.constructor` | Unity/Assets/JCMG/JTween/JobRunners/TransformTweenerBase.cs:12-19 | a new tweener has no slots, no handles, an empty pool and queue, and no job scheduled |
| `SingleTweener.SingleTransformTweener.AddSlot` | Unity/Assets/JCMG/JTween/JobRunners/SingleTransformTweener.cs:33-82 | appends exactly one entry to every parallel list; the handle entry is non-null exactly when a handle or a callback was asked for, and is returned only when a handle was |
| `SingleTweener.SingleTransformTweener.AppendSlotData` | Unity/Assets/JCMG/JTween/JobRunners/SingleTransformTweener.cs:33-55 | one new slot adds exactly one given entry at the end of each of the eight slot lists |
| `SingleTweener.SingleTransformTweener.Move` | Unity/Assets/JCMG/JTween/JobRunners/SingleTransformTweener.cs:17-83 | appends one Move slot: its start state, the endpoints, default rotation and scale records, and a configured position clock beside two default clocks |
| `SingleTweener.SingleTransformTweener.Scale` | Unity/Assets/JCMG/JTween/JobRunners/SingleTransformTweener.cs:85-147 | appends one Scale slot: its start state, the scale endpoints, default position and rotation records, and a configured scale clock |
| `SingleTweener.SingleTransformTweener.Rotate` | Unity/Assets/JCMG/JTween/JobRunners/SingleTransformTweener.cs:149-219 | appends one Rotate slot: its start state, the rotation endpoints, and a configured rotation clock |
| `SingleTweener.SingleTransformTweener.RotateOnAxis` | Unity/Assets/JCMG/JTween/JobRunners/SingleTransformTweener.cs:221-299 | requires a single axis, as asserted; appends one slot rotating by the angle from the target's current Euler angles in the chosen space |
| `SingleTweener.SingleTransformTweener.DrainActions` | Unity/Assets/JCMG/JTween/JobRunners/SingleTransformTweener.cs:329-389 | empties the queue and leaves exactly the slot data and handle states DrainFrom computes, or reports the throw |
| `SingleTweener.SingleTransformTweener.ApplyHandleAction` | Unity/Assets/JCMG/JTween/JobRunners/SingleTransformTweener.cs:331-388 | one dequeued command changes the slot data and handle states as DrainStep states, or reports the throw |
| `SingleTweener.SingleTransformTweener.RewindTransformLifetimes` | Unity/Assets/JCMG/JTween/JobRunners/SingleTransformTweener.cs:572-585 | restarts exactly the three clocks of the slot |
| `SingleTweener.SingleTransformTweener.CaptureStarts` | Unity/Assets/JCMG/JTween/JobRunners/SingleTransformTweener.cs:392-406 | the start capture leaves the states StartPass computes and returns the handles due a Started call, in slot order |
| `SingleTweener.SingleTransformTweener.CaptureCompletions` | Unity/Assets/JCMG/JTween/JobRunners/SingleTransformTweener.cs:447-475 | the completion pass leaves the states LateOutcome computes and returns the slots it marked and the handles due a Completed call |
| `SingleTweener.SingleTransformTweener.CompleteSlot` | Unity/Assets/JCMG/JTween/JobRunners/SingleTransformTweener.cs:449-474 | one slot of the completion pass, as LateStep states it |
| `SingleTweener.SingleTransformTweener.RemoveSlots` | Unity/Assets/JCMG/JTween/JobRunners/SingleTransformTweener.cs:535-544 | RemoveRange on all nine lists |
| `SingleTweener.SingleTransformTweener.RecycleMarked` | Unity/Assets/JCMG/JTween/JobRunners/SingleTransformTweener.cs:482-554 | the recycle pass's removal ranges as written: every list becomes the recycled list over the frame's window of marks; each removal is the non-throwing `RemoveRange` (see Left out) |
| `SingleTweener.SingleTransformTweener.VisitMarked` | Unity/Assets/JCMG/JTween/JobRunners/SingleTransformTweener.cs:498-551 | one visited mark opens, extends or closes a run, and the lists with the rest of the plan applied do not change |
| `SingleTweener.SingleTransformTweener.RecycleRuns` | Unity/Assets/JCMG/JTween/JobRunners/SingleTransformTweener.cs:498-551 | visiting marked[0 .. last] leaves exactly the lists and handle entries that the window's removal plan gives |
| `SingleTweener.SingleTransformTweener.UpdateTweens` | Unity/Assets/JCMG/JTween/JobRunners/SingleTransformTweener.cs:318-426 | with no slots nothing happens; otherwise the queue is drained, starts are captured as UpdateOutcome states, and the job is marked scheduled; a throw is reported |
| `SingleTweener.SingleTransformTweener.Update` | Unity/Assets/JCMG/JTween/JobRunners/TweenerBase.cs:71-76 | stores the frame's delta time and then runs UpdateTweens |
| `SingleTweener.SingleTransformTweener.LateUpdateTweens` | Unity/Assets/JCMG/JTween/JobRunners/SingleTransformTweener.cs:428-570 | nothing unless a job was scheduled; otherwise clears the flag, completes and recycles as LateOutcome and Recycled state, and puts each ended handle back at the end of the pool before its Completed call |
| `SingleTweener.SingleTransformTweener.CompleteAndRecycle` | Unity/Assets/JCMG/JTween/JobRunners/SingleTransformTweener.cs:447-554 | the completion pass followed by the recycle pass over the slots it marked; handles keep the state the completion pass gave them |
| `SingleTweener.SingleTransformTweener.Repool` | Unity/Assets/JCMG/JTween/JobRunners/SingleTransformTweener.cs:560-565 | the handles of completed tweens join the end of the pool in the order they were queued, and every listed handle still belongs to the tweener |
| `BatchPasses.ChainIff` | JTween/JobRunners/BatchTransformTweener.cs:52-59 | the recursive tiling and the batch-by-batch tiling (each batch starts where the one before ends, the first at 0, the last ends at the slot count) say the same thing |
| `BatchPasses.TiledBatchEnd` | JTween/JobRunners/BatchTransformTweener.cs:52-59 | under tiling every batch's slots lie within the slot lists |
| `BatchPasses.TiledBatchesDisjoint` | JTween/JobRunners/BatchTransformTweener.cs:52-59 | under tiling an earlier batch ends at or before a later one starts: batches never share a slot |
| `BatchPasses.TiledCoversSlotFrom` | JTween/JobRunners/BatchTransformTweener.cs:52-59 | a slot at or after some batch's start and below the slot count lies in some batch |
| `BatchPasses.TiledCoversSlot` | JTween/JobRunners/BatchTransformTweener.cs:52-59 | under tiling every slot belongs to a batch |
| `BatchPasses.TiledAppend` | JTween/JobRunners/BatchTransformTweener.cs:52-59 | a new batch that starts at the current slot count (as creation appends it) keeps the tiling, over the longer slot lists |
| `BatchPasses.TiledSameSpans` | JTween/JobRunners/BatchTransformTweener.cs:52-59 | the tiling depends only on start indices and lengths, never on batch states |
| `BatchPasses.RemoveBatch` | JTween/JobRunners/BatchTransformTweener.cs:698-707 | recycling a batch leaves one batch fewer |
| `BatchPasses.ChainRemove` | JTween/JobRunners/BatchTransformTweener.cs:698-707 | removing a batch and moving every later batch down by its length keeps the batch-by-batch tiling, over the slots that remain |
| `BatchPasses.TiledRemove` | JTween/JobRunners/BatchTransformTweener.cs:698-707 | recycling any batch keeps the tiling over the slot count less its length |
| `BatchPasses.PropagateBatch` | JTween/JobRunners/BatchTransformTweener.cs:538-557 | copying a batch state into its slots (and restarting their clocks) keeps the slot lists aligned and leaves transforms and channel values untouched |
| `BatchPasses.BatchDrainStep` | JTween/JobRunners/BatchTransformTweener.cs:478-567 | an index outside the batch list changes nothing (the warning branch); otherwise the step throws exactly when the command is not drainable (NoAction, or no handle); a completed step keeps the handles, the spans and the set of known handles |
| `BatchPasses.BatchDrainStepEffect` | JTween/JobRunners/BatchTransformTweener.cs:484-561 | a drained command gives the batch its ApplyAction state, gives it to its handle and to exactly the batch's slots, leaves the other batches alone, and restarts the batch clock and exactly the batch's slot clocks on Rewind and Restart |
| `BatchPasses.BatchDrainFrom` | JTween/JobRunners/BatchTransformTweener.cs:478-567 | draining the whole queue keeps handles, spans and the known handles when it completes |
| `BatchPasses.BatchDrainSucceedsIff` | JTween/JobRunners/BatchTransformTweener.cs:478-567 | the whole drain completes if and only if every queued command is drainable |
| `BatchPasses.BatchDrainKeepsConsistent` | JTween/JobRunners/BatchTransformTweener.cs:486-536 | draining keeps every batch state and every slot state consistent |
| `BatchPasses.BatchDrainStepAsWritten` | JTween/JobRunners/BatchTransformTweener.cs:484 | the drain step as written, switching on the handle's latest command instead of the queued one, keeps the data fitting together |
| `BatchPasses.RestartThenPauseLosesRestart` | JTween/JobRunners/BatchTransformTweener.cs:435-450 | Restart then Pause on one batch handle in a frame: as written the batch clock is not restarted; drained with the queued types it is |
| `BatchPasses.BatchDrainStepApplies` | JTween/JobRunners/BatchTransformTweener.cs:484-562 | a drainable command on a batch with a handle gives the batch and its handle the new state, restarts the batch clock only on Rewind and Restart, and propagates the state to the batch's slots |
| `BatchPasses.BatchDrainStepClock` | JTween/JobRunners/BatchTransformTweener.cs:484-535 | a command other than None on a batch with a handle always drains, keeps the handle list, and restarts the batch clock exactly on Rewind and Restart |
| `BatchPasses.RestartThenPauseAsWritten` | JTween/JobRunners/BatchTransformTweener.cs:484-531 | with Pause as the handle's latest command, draining Restart then Pause leaves the batch clock where it was |
| `BatchPasses.RestartThenPauseOwnTypes` | JTween/JobRunners/BatchTransformTweener.cs:435-450 | drained with each queued command's own type, Restart then Pause leaves the batch clock restarted |
| `BatchPasses.BatchStartStep` | JTween/JobRunners/BatchTransformTweener.cs:571-584 | one batch of the start capture changes only batch states and the known handles' states, keeping slots, clocks and spans |
| `BatchPasses.BatchStartPass` | JTween/JobRunners/BatchTransformTweener.cs:569-585 | the capture over a prefix of the batches keeps slots, handles, clocks and spans |
| `BatchPasses.BatchStartPassBatches` | JTween/JobRunners/BatchTransformTweener.cs:569-585 | after the capture exactly the playing, just-started batches in the prefix have lost JustStarted; the others are unchanged |
| `BatchPasses.BatchStartPassStarted` | JTween/JobRunners/BatchTransformTweener.cs:569-585 | a handle is queued for Started if and only if it belongs to a batch in the prefix that was starting; at most one entry per batch |
| `BatchPasses.BatchUpdateOutcome` | JTween/JobRunners/BatchTransformTweener.cs:467-622 | with no slots UpdateTweens changes nothing and starts nothing; otherwise it completes if and only if every queued command is drainable, and keeps the handles |
| `BatchPasses.BatchUpdateSettlesStarts` | JTween/JobRunners/BatchTransformTweener.cs:467-622 | with slots, UpdateTweens keeps batch and slot states consistent and leaves no batch playing and just started |
| `BatchPasses.RunBatchJob` | JTween/JobRunners/BatchTransformTweener.cs:590-604 | the native copies after the batch job ran over every index: one per batch, each over its batch's span, with the job's flags and clock |
| `BatchPasses.WriteBackBatches` | JTween/JobRunners/BatchTransformTweener.cs:636-639 | the copy back keeps the data fitted: the first copied batches and clocks take the job's values, batches added since keep theirs, spans, handles, slots and handle states stay |
| `BatchPasses.CopyFitsAfterAppend` | JTween/JobRunners/BatchTransformTweener.cs:52-58 | a batch created while the job is scheduled leaves the native copies lined up with the batch list |
| `BatchPasses.WriteBackUnchangedCopy` | JTween/JobRunners/BatchTransformTweener.cs:636-639 | copying back copies of a prefix that nobody changed leaves the data as it was |
| `BatchPasses.WriteBackOfJob` | JTween/JobRunners/BatchTransformTweener.cs:590-639 | the frame's round trip: every batch present when the job was scheduled ends with its own span and the job's flags and clock; batches appended since come back untouched |
| `BatchPasses.RemoveBatchData` | JTween/JobRunners/BatchTransformTweener.cs:672-708 | recycling a batch removes it with its clock, handle entry and slots, leaving the rest fitting together and the handle states unchanged |
| `BatchPasses.BatchLateMark` | JTween/JobRunners/BatchTransformTweener.cs:653-670 | the first half of a batch's late step touches only batch and handle states, keeping slots, handles and clocks |
| `BatchPasses.BatchLateStep` | JTween/JobRunners/BatchTransformTweener.cs:651-710 | one batch of the late pass removes exactly one batch when it awaits recycling and none otherwise, keeping everything fitting together |
| `BatchPasses.BatchLatePass` | JTween/JobRunners/BatchTransformTweener.cs:649-711 | the late pass over batches k-1 down to 0 keeps everything fitting together and the known handles |
| `BatchPasses.BatchLateOutcome` | JTween/JobRunners/BatchTransformTweener.cs:649-711 | LateUpdateTweens' pass over every batch keeps everything fitting together |
| `BatchPasses.BatchLateStepSettles` | JTween/JobRunners/BatchTransformTweener.cs:651-710 | a late step leaves its batch settled (removed if recyclable, JustEnded cleared if it ended) without unsettling the batches above it |
| `BatchPasses.BatchLatePassSettles` | JTween/JobRunners/BatchTransformTweener.cs:649-711 | walking down from the last batch, every remaining batch ends settled |
| `BatchPasses.BatchLateOutcomeSettles` | JTween/JobRunners/BatchTransformTweener.cs:649-711 | after LateUpdateTweens no batch awaits recycling and none is left just ended |
| `BatchPasses.BatchLatePassEndsListedHandles` | JTween/JobRunners/BatchTransformTweener.cs:660-669 | only handles of listed batches are queued for Completed |
| `BatchPasses.RemoveBatchKeepsOtherSlots` | JTween/JobRunners/BatchTransformTweener.cs:672-707 | recycling one batch keeps every other batch's slot contents, at their moved-down positions |
| `BatchTweener.BatchRotateState` | JTween/JobRunners/BatchTransformTweener.cs:299-306 | a BatchRotate slot starts in the handle-dependent start state, rotation only, in the requested space, and with no rotate-mode flag, which reads back as rotation about all three axes |
| `BatchTweener.UpdateTransformsState` | JTween/JobRunners/BatchTransformTweener.cs:407-416 | a BatchUpdateTransforms slot starts in the handle-dependent start state with all three channels enabled and movement and rotation both in the requested space |
| `BatchTweener.Repeat` | JTween/JobRunners/BatchTransformTweener.cs:106-109 | n copies of one entry: the per-slot defaults of a batch |
| `BatchTweener.Float3Pairs` | JTween/JobRunners/BatchTransformTweener.cs:106 | one from/to pair per slot of the slice |
| `BatchTweener.RotationPairs` | JTween/JobRunners/BatchTransformTweener.cs:308 | one from/to rotation pair per slot of the slice |
| `BatchTweener.SliceCheckAsWrittenMissesTo` | JTween/JobRunners/BatchTransformTweener.cs:47-49 | the written check (fromArray tested twice, toArray never) lets a short toArray through; the intended check is exactly the written one plus the toArray test |
| `BatchTweener.BatchTransformTweener.constructor` | JTween/JobRunners/BatchTransformTweener.cs:13-15 | a new tweener has no batches, no slots, no handles, an empty pool and queue, and no job scheduled |
| `BatchTweener.BatchTransformTweener.AddBatch` | JTween/JobRunners/BatchTransformTweener.cs:52-96 | creation appends one batch over exactly the next slots, its clock, its handle entry (a pooled handle when a handle or listener is wanted, null otherwise) and the slice's transforms and per-slot entries; a negative start index or length throws in `AddRange` after the batch (its length cast to `uint`), its clock and its handle entry were appended, with no slot added |
| `BatchTweener.BatchTransformTweener.AppendSlotData` | JTween/JobRunners/BatchTransformTweener.cs:98-124 | the per-slot loop appends one entry per new slot to the seven lists besides the transforms |
| `BatchTweener.BatchTransformTweener.AppendBatchEntry` | JTween/JobRunners/BatchTransformTweener.cs:55-97 | creation adds exactly one batch entry, one clock and one handle entry, and appends the slice's transforms; a job copy that lined up with the batches still does |
| `BatchTweener.BatchTransformTweener.AppendBatch` | JTween/JobRunners/BatchTransformTweener.cs:52-96 | creation past the argument check: the batch over the next slots joins the list, and the tweener stays valid with the slice's transforms and per-slot entries appended |
| `BatchTweener.BatchTransformTweener.BatchMove` | JTween/JobRunners/BatchTransformTweener.cs:27-125 | a movement batch: the slice's transforms, Movement state in the requested space, the slice's from/to positions and the clamped clock on the batch and each slot's position channel; default entries elsewhere; a negative start index or length throws in `AddRange` after the batch (its length cast to `uint`), its clock and its handle entry were appended, with no slot added |
| `BatchTweener.BatchTransformTweener.BatchScale` | JTween/JobRunners/BatchTransformTweener.cs:127-221 | a scaling batch: the slice's transforms, Scaling state, the slice's from/to scales and the clamped clock on the batch and each slot's scale channel; a negative start index or length throws in `AddRange` after the batch (its length cast to `uint`), its clock and its handle entry were appended, with no slot added |
| `BatchTweener.BatchTransformTweener.BatchRotate` | JTween/JobRunners/BatchTransformTweener.cs:223-321 | a rotation batch: the slice's transforms, Rotation state in the requested space, the slice's from/to rotations and the clamped clock on the batch and each slot's rotation channel; a negative start index or length throws in `AddRange` after the batch (its length cast to `uint`), its clock and its handle entry were appended, with no slot added |
| `BatchTweener.BatchTransformTweener.BatchUpdateTransforms` | JTween/JobRunners/BatchTransformTweener.cs:323-433 | a batch on all three channels, with the slice's three from/to pairs and one clock copied to the batch and to every channel of every slot; a negative start index or length throws in `AddRange` after the batch (its length cast to `uint`), its clock and its handle entry were appended, with no slot added |
| `BatchTweener.BatchTransformTweener.DrainActions` | JTween/JobRunners/BatchTransformTweener.cs:476-567 | corrected (see Findings): the drain loop completes exactly when BatchDrainFrom does, leaves the state it computes and empties the queue |
| `BatchTweener.BatchTransformTweener.ApplyBatchAction` | JTween/JobRunners/BatchTransformTweener.cs:478-567 | corrected (see Findings): one dequeued command does exactly what BatchDrainStep states, and fails exactly where it throws |
| `BatchTweener.BatchTransformTweener.DrainOne` | JTween/JobRunners/BatchTransformTweener.cs:476-567 | corrected (see Findings): one turn of the drain loop removes the oldest command; the rest of the drain still reaches the same result, and a command that throws means the whole drain fails |
| `BatchTweener.BatchTransformTweener.CommitBatchAction` | JTween/JobRunners/BatchTransformTweener.cs:538-562 | the batch and its handle take the new state, its slots take it too, and on a restart the batch clock and the slot clocks restart |
| `BatchTweener.BatchTransformTweener.PropagateBatchState` | JTween/JobRunners/BatchTransformTweener.cs:538-557 | the slot loop gives the batch's slots its state and restarts their clocks as PropagateBatch states |
| `BatchTweener.BatchTransformTweener.CaptureBatchStarts` | JTween/JobRunners/BatchTransformTweener.cs:569-585 | the start capture leaves the state BatchStartPass computes over every batch and returns its Started handles in batch order |
| `BatchTweener.BatchTransformTweener.StartBatch` | JTween/JobRunners/BatchTransformTweener.cs:571-584 | one batch of the capture, as BatchStartStep |
| `BatchTweener.BatchTransformTweener.UpdateTweens` | JTween/JobRunners/BatchTransformTweener.cs:467-622 | corrected drain (see Findings): with no slots nothing changes; otherwise the state BatchUpdateOutcome computes, an emptied queue, native copies of every batch and clock that the batch job has run over (RunBatchJob) and a scheduled job; a throw is reported |
| `BatchTweener.BatchTransformTweener.DrainCaptureAndSchedule` | JTween/JobRunners/BatchTransformTweener.cs:476-608 | corrected drain (see Findings): with slots, the state BatchUpdateOutcome computes or the reported throw; when the drain does not throw, an empty queue, native copies that are the batch job's output over every batch and clock, and a scheduled job |
| `BatchTweener.BatchTransformTweener.DrainAndCapture` | JTween/JobRunners/BatchTransformTweener.cs:476-585 | corrected drain (see Findings): the drain and the start capture leave the state BatchUpdateOutcome computes and an empty queue, or report the throw |
| `BatchTweener.BatchTransformTweener.ScheduleBatchJob` | JTween/JobRunners/BatchTransformTweener.cs:590-608 | the native copies are the batch job's output over every batch and clock, they line up with the batch list, and the job is marked scheduled |
| `BatchTweener.BatchTransformTweener.Update` | Unity/Assets/JCMG/JTween/JobRunners/TweenerBase.cs:71-76 | stores the frame's delta time, then runs UpdateTweens; with slots and no throw the batch job has run with that delta time |
| `BatchTweener.BatchTransformTweener.LateUpdateTweens` | JTween/JobRunners/BatchTransformTweener.cs:624-733 | nothing unless a job was scheduled; otherwise clears the flag, copies the job's batches and clocks back, leaves the state BatchLateOutcome computes from the written-back data and puts each ended handle back at the end of the pool |
| `BatchTweener.BatchTransformTweener.CompleteFrame` | JTween/JobRunners/BatchTransformTweener.cs:633-733 | the scheduled branch of LateUpdateTweens: flag cleared, write-back, late pass and repooling as BatchLateOutcome of WriteBackBatches states |
| `BatchTweener.BatchTransformTweener.ClearJobScheduled` | JTween/JobRunners/BatchTransformTweener.cs:633 | the job is no longer marked scheduled and the tweener stays valid |
| `BatchTweener.BatchTransformTweener.CopyBackAndComplete` | JTween/JobRunners/BatchTransformTweener.cs:636-711 | the write-back followed by the late loop leaves exactly the state and Completed handles BatchLateOutcome states for the written-back data |
| `BatchTweener.BatchTransformTweener.CopyBack` | JTween/JobRunners/BatchTransformTweener.cs:638-639 | the native batches and clocks overwrite the start of their lists, as WriteBackBatches states, and the tweener stays valid |
| `BatchTweener.BatchTransformTweener.CompleteAndCompact` | JTween/JobRunners/BatchTransformTweener.cs:649-711 | the late loop from the last batch down leaves exactly the state and Completed handles BatchLateOutcome states |
| `BatchTweener.BatchTransformTweener.Repool` | JTween/JobRunners/BatchTransformTweener.cs:723-731 | the handles of completed batches join the end of the pool in the order they were queued, and every listed handle still belongs to the tweener |
| `BatchTweener.BatchTransformTweener.LateBatch` | JTween/JobRunners/BatchTransformTweener.cs:651-710 | one batch of the late loop, as BatchLateStep |
| `BatchTweener.BatchTransformTweener.MarkBatch` | JTween/JobRunners/BatchTransformTweener.cs:653-670 | the handle update and end report of one batch, as BatchLateMark |
| `BatchTweener.BatchTransformTweener.RemoveBatchAt` | JTween/JobRunners/BatchTransformTweener.cs:672-708 | recycling one batch, as RemoveBatchData: its slots leave every list, later batches move down, its entries go |
| `BatchTweener.BatchTransformTweener.RemoveSlots` | JTween/JobRunners/BatchTransformTweener.cs:687-694 | RemoveRange of the batch's slots on all eight slot lists |
| `BatchTweener.BatchTransformTweener.ShiftLaterBatches` | JTween/JobRunners/BatchTransformTweener.cs:698-703 | every later batch's start index drops by the removed length, as a uint subtraction, and the earlier ones are unchanged |
| `BatchTweener.BatchTransformTweener.DropBatchEntry` | JTween/JobRunners/BatchTransformTweener.cs:705-707 | the batch entry, clock and handle entry at the index are removed, and the others keep their order |
| `Jobs.UpdateKeepsProgressDefined` | JTween/Core/TweenLifetime.cs:20-47 | advancing a clock by a non-negative delta keeps its progress defined, so the jobs can advance it every frame |
| `Jobs.EaseSample` | JTween/Core/TweenLifetime.cs:71-75 | the job's float ease is NaN exactly when the clock's duration is 0 |
| `Jobs.LastEnabled` | Unity/Assets/JCMG/JTween/Jobs/ProcessTweenJob.cs:50-87 | the channel whose progress decides isPlaying is the last enabled one in the order movement, rotation, scaling; none when no channel is enabled |
| `Jobs.AdvanceSlot` | Unity/Assets/JCMG/JTween/Jobs/ProcessTweenJob.cs:42-89 | a stopped slot is left alone; a playing one advances each enabled channel's clock once, leaves the others, and goes on playing exactly when the last enabled channel's progress is below 1 |
| `Jobs.StoppedSlotIsFrozen` | Unity/Assets/JCMG/JTween/Jobs/ProcessTweenJob.cs:44-48 | once the job stops a slot, every later frame leaves it exactly as it is |
| `Jobs.NoChannelStops` | Unity/Assets/JCMG/JTween/Jobs/ProcessTweenJob.cs:50-88 | a playing slot with no channel enabled stops on its first frame and nothing else changes |
| `Jobs.MovementSlotStopsAtEnd` | Unity/Assets/JCMG/JTween/Jobs/ProcessTweenJob.cs:51-60 | a non-looping movement-only slot stops on exactly the frame its clock reaches the duration |
| `Jobs.ExecuteSlot` | Unity/Assets/JCMG/JTween/Jobs/ProcessTweenJob.cs:42-89 | each enabled channel's output is its interpolation at the eased progress of its advanced clock (NaN where the ease is), reversed as the clock says; disabled channels keep their old outputs; a stopped slot is untouched |
| `Jobs.ProcessTweenJob.constructor` | Unity/Assets/JCMG/JTween/Jobs/ProcessTweenJob.cs:11-37 | the job holds exactly the arrays, delta time and curves it was given |
| `Jobs.ProcessTweenJob.Execute` | Unity/Assets/JCMG/JTween/Jobs/ProcessTweenJob.cs:42-89 | Execute(i) turns slot i into ExecuteSlot of itself and leaves every other slot untouched |
| `Jobs.ProcessTweenJob.Run` | Unity/Assets/JCMG/JTween/Jobs/ProcessTweenJob.cs:9 | whatever order the parallel-for runs the indices in, every slot ends as ExecuteSlot of its value before the job |
| `Jobs.AdvanceBatch` | Unity/Assets/JCMG/JTween/Jobs/ProcessBatchJob.cs:17-29 | the batch clock advances once and the batch becomes completed when its progress reaches 1; completion is never cleared and the span is untouched |
| `Jobs.BatchCompletesAtEnd` | Unity/Assets/JCMG/JTween/Jobs/ProcessBatchJob.cs:19-28 | a non-looping batch is marked completed on exactly the frame its clock reaches the duration |
| `Jobs.ProcessBatchJob.constructor` | Unity/Assets/JCMG/JTween/Jobs/ProcessBatchJob.cs:8-12 | the job holds exactly the arrays and delta time it was given |
| `Jobs.ProcessBatchJob.Execute` | Unity/Assets/JCMG/JTween/Jobs/ProcessBatchJob.cs:17-29 | Execute(k) turns entry k into AdvanceBatch of itself and leaves the others untouched |
| `Jobs.ProcessBatchJob.Run` | Unity/Assets/JCMG/JTween/Jobs/ProcessBatchJob.cs:17-29 | whatever order the indices run in, every entry ends as AdvanceBatch of its value before the job |
| `LegacyCompaction.Spans` | Unity/Assets/JCMG/JTween/JobRunners/BatchTransformTweener.cs:624-629 | the older batch records read as spans with the same start indices and lengths, one per batch |
| `LegacyCompaction.LegacyShiftDown` | Unity/Assets/JCMG/JTween/JobRunners/BatchTransformTweener.cs:652-657 | lowering every later start index keeps the number of batches |
| `LegacyCompaction.LegacyRemoveBatch` | Unity/Assets/JCMG/JTween/JobRunners/BatchTransformTweener.cs:652-660 | removing a completed batch keeps the earlier batches as they were and has the spans the newer tweener's removal gives |
| `LegacyCompaction.TiledIsSorted` | Unity/Assets/JCMG/JTween/JobRunners/BatchTransformTweener.cs:15-21 | batches that tile the slots are already in the comparer's start-index order, so the sort before compaction meets sorted input |
| `LegacyCompaction.LegacyTiledAppend` | Unity/Assets/JCMG/JTween/JobRunners/BatchTransformTweener.cs:44-46 | a batch created at the current slot count keeps the tiling |
| `LegacyCompaction.LegacySlots.RemoveRange` | Unity/Assets/JCMG/JTween/JobRunners/BatchTransformTweener.cs:642-649 | RemoveRange on the eight slot lists keeps them aligned and removes exactly the given number of slots |
| `LegacyCompaction.RemoveCompleted` | Unity/Assets/JCMG/JTween/JobRunners/BatchTransformTweener.cs:626-660 | removing a batch with its slot range keeps everything fitting together and the earlier batches untouched |
| `LegacyCompaction.CompactStep` | Unity/Assets/JCMG/JTween/JobRunners/BatchTransformTweener.cs:624-662 | one iteration removes the batch exactly when it has completed, keeping the earlier batches |
| `LegacyCompaction.Compacted` | Unity/Assets/JCMG/JTween/JobRunners/BatchTransformTweener.cs:623-663 | the compaction loop over batches k-1 down to 0 keeps everything fitting together |
| `LegacyCompaction.Compaction` | Unity/Assets/JCMG/JTween/JobRunners/BatchTransformTweener.cs:623-663 | the whole compaction pass keeps everything fitting together |
| `LegacyCompaction.KeptEntries` | Unity/Assets/JCMG/JTween/JobRunners/BatchTransformTweener.cs:660 | the surviving per-batch entries are never more than the old ones |
| `LegacyCompaction.SameRunsAgree` | Unity/Assets/JCMG/JTween/JobRunners/BatchTransformTweener.cs:652-657 | batches that differ only in start index cover the same number of slots and keep the same slots and entries |
| `LegacyCompaction.TotalAppend` | Unity/Assets/JCMG/JTween/JobRunners/BatchTransformTweener.cs:623-663 | the slots covered by two batch lists laid end to end add up |
| `LegacyCompaction.KeptPrefix` | Unity/Assets/JCMG/JTween/JobRunners/BatchTransformTweener.cs:623-663 | which slots survive depends only on the slots the batches cover |
| `LegacyCompaction.KeptAppend` | Unity/Assets/JCMG/JTween/JobRunners/BatchTransformTweener.cs:623-663 | the surviving slots of two batch lists laid end to end are the first list's followed by the second's |
| `LegacyCompaction.KeptEntriesAppend` | Unity/Assets/JCMG/JTween/JobRunners/BatchTransformTweener.cs:623-663 | the surviving entries of two batch lists laid end to end are the first list's followed by the second's |
| `LegacyCompaction.TilesFromStart` | Unity/Assets/JCMG/JTween/JobRunners/BatchTransformTweener.cs:44-46 | under tiling a batch starts right after the slots of the batches before it, and together they cover every slot |
| `LegacyCompaction.TiledTotal` | Unity/Assets/JCMG/JTween/JobRunners/BatchTransformTweener.cs:44-46 | tiled batches cover exactly the slot count |
| `LegacyCompaction.KeptAllRunning` | Unity/Assets/JCMG/JTween/JobRunners/BatchTransformTweener.cs:626 | with no batch completed every slot survives |
| `LegacyCompaction.KeptEntriesAllRunning` | Unity/Assets/JCMG/JTween/JobRunners/BatchTransformTweener.cs:626 | with no batch completed every per-batch entry survives |
| `LegacyCompaction.ShiftDownSameRuns` | Unity/Assets/JCMG/JTween/JobRunners/BatchTransformTweener.cs:652-657 | moving batches down keeps their lengths and completion flags |
| `LegacyCompaction.RemoveBatchSplit` | Unity/Assets/JCMG/JTween/JobRunners/BatchTransformTweener.cs:652-660 | the list after a removal is the earlier batches followed by the later ones moved down by the removed length |
| `LegacyCompaction.KeptSkipsCompleted` | Unity/Assets/JCMG/JTween/JobRunners/BatchTransformTweener.cs:626 | a completed batch keeps none of its own slots |
| `LegacyCompaction.KeptEntriesSkipsCompleted` | Unity/Assets/JCMG/JTween/JobRunners/BatchTransformTweener.cs:626 | a completed batch keeps none of its own entries |
| `LegacyCompaction.KeptRemoveCompleted` | Unity/Assets/JCMG/JTween/JobRunners/BatchTransformTweener.cs:626-660 | removing a completed batch and its slot range leaves the surviving slots exactly as they were |
| `LegacyCompaction.KeptEntriesRemoveCompleted` | Unity/Assets/JCMG/JTween/JobRunners/BatchTransformTweener.cs:659-660 | removing a completed batch and its clock leaves the surviving clocks exactly as they were |
| `LegacyCompaction.CompactStepKeeps` | Unity/Assets/JCMG/JTween/JobRunners/BatchTransformTweener.cs:624-662 | one iteration keeps every surviving slot and clock |
| `LegacyCompaction.CompactStepKeepsTailRunning` | Unity/Assets/JCMG/JTween/JobRunners/BatchTransformTweener.cs:624-662 | one compaction step at batch k-1 leaves every batch from k-1 on still running |
| `LegacyCompaction.CompactedKeeps` | Unity/Assets/JCMG/JTween/JobRunners/BatchTransformTweener.cs:623-663 | the loop from the last batch down keeps every surviving slot and clock and leaves no completed batch |
| `LegacyCompaction.CompactionKeepsRunning` | Unity/Assets/JCMG/JTween/JobRunners/BatchTransformTweener.cs:623-663 | compaction removes exactly the completed batches with their clocks and slot ranges and keeps every other batch's slots and clock, in order |
| `LegacyCompaction.CompactionWithoutCompletedIsIdentity` | Unity/Assets/JCMG/JTween/JobRunners/BatchTransformTweener.cs:623-663 | a pass over batches none of which has completed changes nothing |
| `LegacyBatchTweener.LegacyLifetime` | Unity/Assets/JCMG/JTween/JobRunners/BatchTransformTweener.cs:47-53 | the older clock starts at progress 0, not reversed, with the duration as given and the loop count wrapped into a short, not clamped |
| `LegacyBatchTweener.LegacyLifetimeAgainstNew` | Unity/Assets/JCMG/JTween/JobRunners/BatchTransformTweener.cs:47-53 | for a short loop count the older clock agrees with the newer one exactly when the duration is not negative and the count is at least -1; one past short.MaxValue wraps to short.MinValue where the newer revision saturates |
| `LegacyBatchTweener.LegacyMoveState` | Unity/Assets/JCMG/JTween/JobRunners/BatchTransformTweener.cs:59-64 | a BatchMove slot plays with movement only, in the given space; movement decides when it stops |
| `LegacyBatchTweener.LegacyScaleState` | Unity/Assets/JCMG/JTween/JobRunners/BatchTransformTweener.cs:173-178 | a BatchScale slot plays with scaling only; scaling decides when it stops |
| `LegacyBatchTweener.LegacyRotateState` | Unity/Assets/JCMG/JTween/JobRunners/BatchTransformTweener.cs:287-292 | a BatchRotate slot, as written, enables scaling and not rotation: it is the BatchScale slot state |
| `LegacyBatchTweener.LegacyUpdateTransformsState` | Unity/Assets/JCMG/JTween/JobRunners/BatchTransformTweener.cs:413-420 | a BatchUpdateTransforms slot plays with all three channels; scaling decides when it stops |
| `LegacyBatchTweener.PositionPairs` | Unity/Assets/JCMG/JTween/JobRunners/BatchTransformTweener.cs:66 | slot k of the slice tweens from the k-th from entry to the k-th to entry |
| `LegacyBatchTweener.ScalePairs` | Unity/Assets/JCMG/JTween/JobRunners/BatchTransformTweener.cs:182 | slot k of the slice scales from the k-th from entry to the k-th to entry |
| `LegacyBatchTweener.LegacyRotateSlotIsStuck` | Unity/Assets/JCMG/JTween/JobRunners/BatchTransformTweener.cs:284-307 | a BatchRotate slot never moves: its enabled scale channel has a zero-length clock, so every frame leaves all its clocks as they were and only writes a NaN scale |
| `LegacyBatchTweener.LegacyRotateStateIntended` | Unity/Assets/JCMG/JTween/JobRunners/BatchTransformTweener.cs:287-292 | corrected: a BatchRotate slot playing with rotation as its only, and so last, enabled channel |
| `LegacyBatchTweener.LegacyRotateSlotIntendedAdvances` | Unity/Assets/JCMG/JTween/JobRunners/BatchTransformTweener.cs:284-307 | corrected: with the intended state the job advances the rotation clock, leaves the other clocks, and keeps the slot playing until rotation reaches progress 1 |
| `LegacyBatchTweener.NewTweenJob` | Unity/Assets/JCMG/JTween/JobRunners/BatchTransformTweener.cs:526-588 | the job UpdateTweens schedules sees at each index exactly that slot's state and clocks, in fresh arrays |
| `LegacyBatchTweener.RunTweenJob` | Unity/Assets/JCMG/JTween/JobRunners/BatchTransformTweener.cs:570-588 | running the tween job over every slot gives back each slot's clocks as AdvanceSlot of themselves |
| `LegacyBatchTweener.WriteBack` | Unity/Assets/JCMG/JTween/JobRunners/BatchTransformTweener.cs:614-617 | the copy back overwrites the states and clocks of the slots the job saw, leaves later slots and the other lists as they were |
| `LegacyBatchTweener.WriteBackDefined` | Unity/Assets/JCMG/JTween/JobRunners/BatchTransformTweener.cs:614-617 | writing back defined clocks keeps every clock defined |
| `LegacyBatchTweener.IndexedClocksDefined` | Unity/Assets/JCMG/JTween/JobRunners/BatchTransformTweener.cs:614-617 | every clock defined index by index means every clock in the list is defined |
| `LegacyBatchTweener.RemovedClocksDefined` | Unity/Assets/JCMG/JTween/JobRunners/BatchTransformTweener.cs:647-660 | removing a range or one entry keeps every remaining clock defined |
| `LegacyBatchTweener.SwapDown` | Unity/Assets/JCMG/JTween/JobRunners/BatchTransformTweener.cs:623 | exchanging a batch with the one before it moves exactly those two |
| `LegacyBatchTweener.SwapDownStep` | Unity/Assets/JCMG/JTween/JobRunners/BatchTransformTweener.cs:623 | moving a batch down past a larger start index keeps the insertion in progress and the batches as a multiset |
| `LegacyBatchTweener.UnsortedAt` | Unity/Assets/JCMG/JTween/JobRunners/BatchTransformTweener.cs:15-21 | two neighbours out of the comparer's order mean the list is not sorted |
| `LegacyBatchTweener.InsertionDone` | Unity/Assets/JCMG/JTween/JobRunners/BatchTransformTweener.cs:623 | once the moving batch stops, the prefix is in start-index order |
| `LegacyBatchTweener.LegacyBatchTransformTweener.constructor` | Unity/Assets/JCMG/JTween/JobRunners/BatchTransformTweener.cs:23-24 | a new tweener has no batches, no batch clocks, empty slot lists and no job scheduled |
| `LegacyBatchTweener.LegacyBatchTransformTweener.AddBatch` | Unity/Assets/JCMG/JTween/JobRunners/BatchTransformTweener.cs:44-54 | creation appends one not-completed batch over exactly the next slots, its clock, and the targets and per-slot entries; a negative start index or length throws in `AddRange` after the batch (its length cast to `uint`) and its clock were appended, with no slot added |
| `LegacyBatchTweener.LegacyBatchTransformTweener.AppendSlotData` | Unity/Assets/JCMG/JTween/JobRunners/BatchTransformTweener.cs:55-79 | the per-slot loop appends one entry per new slot to the seven lists besides the transforms, keeping every clock defined |
| `LegacyBatchTweener.LegacyBatchTransformTweener.BatchMove` | Unity/Assets/JCMG/JTween/JobRunners/BatchTransformTweener.cs:28-80 | a movement batch over all targets: movement state, the arrays' from/to positions and the older clock on the batch and each slot's position channel |
| `LegacyBatchTweener.LegacyBatchTransformTweener.BatchMoveSlice` | Unity/Assets/JCMG/JTween/JobRunners/BatchTransformTweener.cs:82-140 | the same over the slice from startIndex; a negative start index or length throws in `AddRange` after the batch (its length cast to `uint`) and its clock were appended, with no slot added |
| `LegacyBatchTweener.LegacyBatchTransformTweener.BatchScale` | Unity/Assets/JCMG/JTween/JobRunners/BatchTransformTweener.cs:142-194 | a scaling batch over all targets: scaling state, the arrays' from/to scales and the older clock on the batch and each slot's scale channel |
| `LegacyBatchTweener.LegacyBatchTransformTweener.BatchScaleSlice` | Unity/Assets/JCMG/JTween/JobRunners/BatchTransformTweener.cs:196-254 | the same over the slice from startIndex; a negative start index or length throws in `AddRange` after the batch (its length cast to `uint`) and its clock were appended, with no slot added |
| `LegacyBatchTweener.LegacyBatchTransformTweener.BatchRotate` | Unity/Assets/JCMG/JTween/JobRunners/BatchTransformTweener.cs:256-308 | a batch over all targets with their from/to rotations and the older clock on each rotation channel, but with the scaling-only slot state as written |
| `LegacyBatchTweener.LegacyBatchTransformTweener.BatchRotateSlice` | Unity/Assets/JCMG/JTween/JobRunners/BatchTransformTweener.cs:310-368 | the same over the slice from startIndex; a negative start index or length throws in `AddRange` after the batch (its length cast to `uint`) and its clock were appended, with no slot added |
| `LegacyBatchTweener.LegacyBatchTransformTweener.BatchUpdateTransforms` | Unity/Assets/JCMG/JTween/JobRunners/BatchTransformTweener.cs:370-437 | a batch over all targets on all three channels with the arrays' three from/to pairs and one clock copied to the batch and every channel |
| `LegacyBatchTweener.LegacyBatchTransformTweener.BatchUpdateTransformsSlice` | Unity/Assets/JCMG/JTween/JobRunners/BatchTransformTweener.cs:439-508 | the same over the slice from startIndex; a negative start index or length throws in `AddRange` after the batch (its length cast to `uint`) and its clock were appended, with no slot added |
| `LegacyBatchTweener.LegacyBatchTransformTweener.AdvanceBatches` | Unity/Assets/JCMG/JTween/JobRunners/BatchTransformTweener.cs:553-565 | every batch clock advances by the frame's delta time and a batch reaching progress 1 becomes completed, as ProcessBatchJob does per index |
| `LegacyBatchTweener.LegacyBatchTransformTweener.UpdateTweens` | Unity/Assets/JCMG/JTween/JobRunners/BatchTransformTweener.cs:517-599 | with no slots nothing happens; otherwise the batches advance, the job's copy of every slot is advanced as AdvanceSlot, and the job is marked scheduled |
| `LegacyBatchTweener.LegacyBatchTransformTweener.Update` | Unity/Assets/JCMG/JTween/JobRunners/TweenerBase.cs:71-76 | stores the frame's delta time, then runs UpdateTweens |
| `LegacyBatchTweener.LegacyBatchTransformTweener.LateUpdateTweens` | Unity/Assets/JCMG/JTween/JobRunners/BatchTransformTweener.cs:601-680 | nothing unless a job was scheduled; otherwise clears the flag, and the batches, clocks and slots become the compaction of the written-back data |
| `LegacyBatchTweener.LegacyBatchTransformTweener.CopyBack` | Unity/Assets/JCMG/JTween/JobRunners/BatchTransformTweener.cs:614-617 | the slot lists become WriteBack of themselves with the job's copy |
| `LegacyBatchTweener.LegacyBatchTransformTweener.SortBatches` | Unity/Assets/JCMG/JTween/JobRunners/BatchTransformTweener.cs:623 | afterwards the batches are in start-index order and a permutation of what they were; a list already in order is left as it was |
| `LegacyBatchTweener.LegacyBatchTransformTweener.InsertBatch` | Unity/Assets/JCMG/JTween/JobRunners/BatchTransformTweener.cs:623 | one insertion step extends the sorted prefix by one batch, keeping the multiset, and changes nothing on sorted input |
| `LegacyBatchTweener.LegacyBatchTransformTweener.CompactBatches` | Unity/Assets/JCMG/JTween/JobRunners/BatchTransformTweener.cs:624-665 | the loop from the last batch down leaves exactly the Compaction of the data |
| `LegacyBatchTweener.LegacyBatchTransformTweener.RemoveBatchAt` | Unity/Assets/JCMG/JTween/JobRunners/BatchTransformTweener.cs:626-660 | removing a completed batch, as RemoveCompleted |
| `LegacyBatchTweener.LegacyBatchTransformTweener.RemoveSlots` | Unity/Assets/JCMG/JTween/JobRunners/BatchTransformTweener.cs:642-649 | RemoveRange on every slot list, keeping every clock defined |
| `LegacyBatchTweener.LegacyBatchTransformTweener.ShiftLaterBatches` | Unity/Assets/JCMG/JTween/JobRunners/BatchTransformTweener.cs:652-657 | every later batch's start index drops by the removed length, as a uint subtraction; the earlier ones are unchanged |
| `Collections.ForwardedEntries` | Unity/Assets/JCMG/JTween/Core/TweenHandle.cs:57-61 | forwarding a command to a member list queues at most one entry per member, each with the command and the index of a listed member; when the tweener owns and lists every member, exactly one each |
| `Collections.SendAll` | Unity/Assets/JCMG/JTween/Collections/TweenSet.cs:14-20 | every member, in list order, remembers the command as its latest, and each owning tweener's queue gains exactly the Forwarded entries |
| `Collections.SendOne` | Unity/Assets/JCMG/JTween/Collections/TweenSet.cs:14-20 | one more member remembers the command, and each owning tweener's queue has exactly the Forwarded entries of the members sent so far |
| `Collections.ForwardedSnoc` | Unity/Assets/JCMG/JTween/Core/TweenHandle.cs:57-61 | sending to one more member adds that member's queued entry, if any, to its own tweener's queue |
| `Collections.TweenCollectionBase.constructor` | Unity/Assets/JCMG/JTween/Collections/TweenCollectionBase.cs:18-21 | a new collection has no members, no listeners, and is neither started nor completed |
| `Collections.TweenCollectionBase.AddOnStarted` | Unity/Assets/JCMG/JTween/Collections/TweenCollectionBase.cs:45-48 | the listener is added after the earlier ones |
| `Collections.TweenCollectionBase.AddOnComplete` | Unity/Assets/JCMG/JTween/Collections/TweenCollectionBase.cs:50-53 | the listener is added after the earlier ones |
| `Collections.TweenCollectionBase.ResetFlagsAndListeners` | Unity/Assets/JCMG/JTween/Collections/TweenCollectionBase.cs:38-42 | both once-only flags reset and both listener lists dropped |
| `Collections.TweenSet.constructor` | Unity/Assets/JCMG/JTween/Collections/TweenCollectionBase.cs:18-21 | a new set is empty, has no listeners and is neither started nor completed |
| `Collections.TweenSet.Add` | Unity/Assets/JCMG/JTween/Collections/TweenSet.cs:6-12 | the member gains the set's started and completed handlers and is appended |
| `Collections.TweenSet.Play` | Unity/Assets/JCMG/JTween/Collections/TweenSet.cs:14-20 | Play reaches every member and each owning tweener's queue, in member order |
| `Collections.TweenSet.Pause` | Unity/Assets/JCMG/JTween/Collections/TweenSet.cs:22-28 | Pause reaches every member and each owning tweener's queue, in member order |
| `Collections.TweenSet.Stop` | Unity/Assets/JCMG/JTween/Collections/TweenSet.cs:30-36 | Stop reaches every member and each owning tweener's queue, in member order |
| `Collections.TweenSet.Restart` | Unity/Assets/JCMG/JTween/Collections/TweenSet.cs:38-47 | Restart reaches every member, then the set can start and complete again |
| `Collections.TweenSet.Rewind` | Unity/Assets/JCMG/JTween/Collections/TweenSet.cs:49-58 | Rewind reaches every member, then the set can start and complete again |
| `Collections.TweenSet.Recycle` | Unity/Assets/JCMG/JTween/Collections/TweenSet.cs:60-71 | Recycle reaches every former member, the flags reset and the set is emptied, its listeners kept |
| `Collections.TweenSet.Clear` | Unity/Assets/JCMG/JTween/Collections/TweenCollectionBase.cs:34-43 | Recycle, then both listener lists are dropped as well |
| `Collections.TweenSet.OnTweenStarted` | Unity/Assets/JCMG/JTween/Collections/TweenSet.cs:73-83 | the set is started afterwards, and its started listeners run only on the first call since creation or a reset |
| `Collections.TweenSet.OnTweenCompleted` | Unity/Assets/JCMG/JTween/Collections/TweenSet.cs:85-103 | the set becomes completed, and its completed listeners run, exactly when every member has completed and it had not completed before |
| `Collections.TweenSequence.constructor` | Unity/Assets/JCMG/JTween/Collections/TweenCollectionBase.cs:18-21 | a new sequence is empty, with no listeners, the cursor at 0 and no current member |
| `Collections.TweenSequence.Add` | Unity/Assets/JCMG/JTween/Collections/TweenSequence.cs:13-18 | the member gains the sequence's completed handler and is appended; the cursor stays valid |
| `Collections.TweenSequence.AddOnStep` | Unity/Assets/JCMG/JTween/Collections/TweenSequence.cs:20-23 | the step listener is added after the earlier ones |
| `Collections.TweenSequence.Play` | Unity/Assets/JCMG/JTween/Collections/TweenSequence.cs:32-44 | a fresh sequence with members makes its first member current, moves the cursor to 1, subscribes the started handler on that member and plays it; otherwise the current member is played again, and with no current member nothing changes; no other member's listeners or command and no other tweener's queue change |
| `Collections.TweenSequence.Pause` | Unity/Assets/JCMG/JTween/Collections/TweenSequence.cs:74-77 | as written, the current member is sent Play, not Pause |
| `Collections.TweenSequence.Stop` | Unity/Assets/JCMG/JTween/Collections/TweenSequence.cs:79-82 | the current member is sent Stop; the cursor is unchanged |
| `Collections.TweenSequence.Rewind` | Unity/Assets/JCMG/JTween/Collections/TweenSequence.cs:46-62 | every member is rewound; with members the first becomes current and the cursor moves to 1 |
| `Collections.TweenSequence.Restart` | Unity/Assets/JCMG/JTween/Collections/TweenSequence.cs:84-101 | every member is rewound; with members the first becomes current, the cursor moves to 1 and the first member is played |
| `Collections.TweenSequence.Recycle` | Unity/Assets/JCMG/JTween/Collections/TweenSequence.cs:64-72 | every former member is recycled and the list emptied; cursor, current member and listeners are kept |
| `Collections.TweenSequence.Clear` | Unity/Assets/JCMG/JTween/Collections/TweenSequence.cs:25-30 | Recycle, then flags reset and the started, completed and step listeners dropped; the cursor is kept |
| `Collections.TweenSequence.OnTweenStarted` | Unity/Assets/JCMG/JTween/Collections/TweenSequence.cs:103-106 | the started listeners run on every call |
| `Collections.TweenSequence.OnTweenCompleted` | Unity/Assets/JCMG/JTween/Collections/TweenSequence.cs:108-121 | with members left past the cursor the next becomes current, is played and the step listeners run; with none left the completed listeners run, the cursor stays and no command is sent; no other member's command and no other tweener's queue change |
| `Collections.PlayThrough` | Unity/Assets/JCMG/JTween/Collections/TweenSequence.cs:32-121 | a fresh sequence played and completed member after member ends with the cursor at the end and the last member current, after one step per further member |
| `Collections.CollectionPools.constructor` | JTween/JTweenControl/JTweenControl_Collections.cs:7 | both pools start empty |
| `Collections.CollectionPools.NewSet` | JTween/JTweenControl/JTweenControl_Collections.cs:14-28 | the first pooled set is taken from the front, or a new empty set is made when the pool is empty |
| `Collections.CollectionPools.RecycleSet` | JTween/JTweenControl/JTweenControl_Collections.cs:36-40 | the set is cleared (members recycled, listeners dropped) and appended to the pool |
| `Collections.CollectionPools.NewSequence` | JTween/JTweenControl/JTweenControl_Collections.cs:46-60 | the first pooled sequence is taken from the front, or a new empty one is made |
| `Collections.CollectionPools.RecycleSequence` | JTween/JTweenControl/JTweenControl_Collections.cs:68-71 | the sequence is appended to the pool as it is, not cleared |
| `Collections.SetPoolIsFifo` | JTween/JTweenControl/JTweenControl_Collections.cs:14-40 | sets come back from the pool in the order they were recycled |
| `Collections.ReusedSequenceKeepsMembers` | JTween/JTweenControl/JTweenControl_Collections.cs:46-71 | a recycled sequence comes back from the pool with its old members and cursor |
| `ArrayExtensions.PositionIn` | Unity/Assets/JCMG/JTween/Extensions/ArrayExtensions.cs:33-80 | a transform contributes its local position in Local space and its world position in World space |
| `ArrayExtensions.RotationIn` | Unity/Assets/JCMG/JTween/Extensions/ArrayExtensions.cs:91-138 | a transform contributes its local rotation in Local space and its world rotation in World space |
| `ArrayExtensions.Populate` | Unity/Assets/JCMG/JTween/Extensions/ArrayExtensions.cs:16-22 | every element becomes the value |
| `ArrayExtensions.PopulatePositionArray` | Unity/Assets/JCMG/JTween/Extensions/ArrayExtensions.cs:33-80 | element i becomes transform i's position in the requested space |
| `ArrayExtensions.PopulateRotationArray` | Unity/Assets/JCMG/JTween/Extensions/ArrayExtensions.cs:91-138 | element i becomes transform i's rotation in the requested space |
| `ArrayExtensions.PopulateScaleArray` | Unity/Assets/JCMG/JTween/Extensions/ArrayExtensions.cs:147-172 | element i becomes transform i's local scale |

## Left out

- Unity's job system is not modelled: scheduling, `JobHandle.Complete`, `NativeArray` allocation and disposal, and the `JTweenTools` memory copies. Each job runs to completion inside UpdateTweens, as a loop or a function that applies `Execute` once per index. Its native copies are sequence fields, and LateUpdateTweens writes them back with sequence assignments. The older batch tweener runs both its jobs this way. The newer batch tweener runs its batch job this way.
- The newer revision's `ProcessBatchJob`, over `TweenTransformBatchState`, is not part of this model. The newer batch tweener takes it as a parameter (`BatchPasses.BatchJob`), a function from a batch, its clock and the delta time to the batch's new flags and clock. The model assumes it keeps each batch's span.
- `SingleTweener.SingleTransformTweener.UpdateTweens`, `SingleTweener.SingleTransformTweener.LateUpdateTweens`, `BatchTweener.BatchTransformTweener.UpdateTweens` and `BatchTweener.BatchTransformTweener.LateUpdateTweens` do not run the per-slot job. The newer revision schedules it in `SetupJobs` and reads it back in `CopyNativeCollectionsToManaged`, and neither body is part of this model. So in these four members no slot clock advances between UpdateTweens and LateUpdateTweens. In the newer batch tweener only the batch clocks advance, through its batch job.
- `TransformAccessArray` is left out with its `Add` and `RemoveAtSwapBack` calls. So is `ApplyTweenToTransformJob`, which only writes the outputs to Unity transforms. This also covers the older tweener's full-array overloads, which add `_transforms.buffer[i]` counted from the list start instead of from the batch start. Only the managed slot lists are modelled.
- `Quaternion.Lerp`, `Quaternion.Euler` and `TweenRotation.GetRotation` are library calls. They are a function parameter `rotate`. The sine, expo, circ, elastic and punch eases are the parameter `curve`. The linear, polynomial, back and bounce eases are modelled exactly.
- Floating point is not modelled. Time, progress and coordinates are `real`, and only the 1e-5 progress threshold is kept. Rounding, infinities and NaN propagation are left out. The one NaN the jobs can produce, the ease of a zero-length clock, is modelled as `Jobs.Sample.NaN`.
- A `Transform` is an identity. `ArrayExtensions` reads its position, rotation and scale through a `pose` function. The `Transform[]` and `IList<Transform>` overloads of each `Populate*Array` are one method over a sequence.
- Listeners (`Action` delegates) are identities kept in sequences. Invoking one is modelled by returning the listeners to be invoked, in order. What a listener does when called is not modelled.
- `Debug.LogWarning`, the `Profiler` samples and `Teardown` are left out. A dropped command is simply dropped.
- `Assert` calls become preconditions. They fail only in development builds and compile away in release builds.
- `Lifetime.TweenLifetime.Update` requires a non-negative delta time and a clock whose progress is defined. So does every job and tweener method that advances clocks. Unity passes `Time.deltaTime`, which is never negative. A zero-length clock with `current` away from 0 is never created, because the tweeners clamp the duration and start `current` at 0.
- `Lifetime.TweenLifetime.Update` and `Lifetime.TweenLifetime.GetEase` carry no `ensures` of their own. Their properties are lemmas in `LifetimeProperties`: clamping, loop counting, PingPong, the zero-duration clock, and the ease endpoints.
- `BatchTweener.BatchTransformTweener.AddBatch` and the other creation methods of both batch tweeners require that the slot count after the call fits a C# `int` (`|transforms| + length <= IntMax`). The source would overflow `uint` indices past that bound, and the model does not follow that overflow.
- `BatchTweener.BatchTransformTweener.DrainActions`, `BatchTweener.BatchTransformTweener.DrainOne`, `BatchTweener.BatchTransformTweener.ApplyBatchAction`, `BatchTweener.BatchTransformTweener.DrainAndCapture`, `BatchTweener.BatchTransformTweener.DrainCaptureAndSchedule` and `BatchTweener.BatchTransformTweener.UpdateTweens` drain each queued command with its own action type, which is the corrected behaviour. As written, the source switches on the handle's current action type. That as-written drain is `BatchPasses.BatchDrainStepAsWritten` and `BatchPasses.BatchDrainFromAsWritten` (see Findings).
- `BatchTweener.BatchTransformTweener.DrainActions`: when a command throws (NoAction, or a batch without a handle), the model reports it but does not specify the state left behind. The same holds for `SingleTweener.SingleTransformTweener.DrainActions`.
- `BatchTweener.BatchTransformTweener.BatchMove`, `BatchScale` and `BatchRotate` require `toArray` to hold the slice, which the source never asserts (see Findings). The model therefore never indexes past the end of `toArray`.
- `LegacyBatchTweener.LegacyBatchTransformTweener.SortBatches` is a stable insertion sort, and on tiled batches it leaves the list as it was. `Array.Sort` is an unstable introsort. Tiled batches do not always have distinct start indices: a zero-length batch, which `BatchMove` accepts with empty arrays, starts where the next batch starts. `Array.Sort` may swap such a pair, while the batch clocks stay where they are, so each of the two batches would then be paired with the other's clock. The model does not capture that reordering.
- The older tweener's `Setup`, which only creates the comparer, is not modelled. `TweenerBase.Setup` is (`Handles.TweenerBase.Setup`).
- The repository mixes revisions. The newer batch tweener (`JTween/JobRunners/BatchTransformTweener.cs`) uses `TweenTransformBatchState` and handle-based commands. It is modelled against the newer `TweenLifetime` (`JTween/Core/TweenLifetime.cs`), and so are the single tweener and both jobs. The older tweener keeps its own `TweenBatch`, its `TweenTransformState` with byte flags, and an unclamped lifetime (`LegacyBatchTweener.LegacyLifetime`). Where a field name or type differs between revisions, the model follows the file that uses it.
- `Collections.TweenSequence.Clear` follows the override in `TweenSequence.cs`: the base `Clear`, then the step listeners are dropped. `TweenCollectionBase.Clear` is not declared virtual, so the two files do not fit together as written. The model takes the override as the sequence's `Clear`.
- `Collections.TweenSequence.Pause` models the code as written: it sends Play to the current member. The interface documentation says it pauses.
- The handle-returning overload in `JTweenControl_BatchTransforms.cs` passes `false` for `useTweenHandle`. It is one of the thin `JTweenControl` forwarding wrappers, none of which is modelled.
- The single tweener's recycle pass chooses its removal ranges as written: `RemoveRange(max(0, end - length), length)` removes the run shifted one slot lower (`RecyclePlans.RunOfTwoRemovesOneLower`). It is not listed under Findings because no corrected pass is modelled. Each removal itself, though, is the non-throwing `RemoveRange`, not the source's (next lines).
- Every scheduler's slot lists are sequences with no capacity. The source's are `FastList`s that start with capacity 10000 (`DEFAULT_FAST_LIST_SIZE`). Their `RemoveRange` throws `ArgumentException` whenever the start plus the live length exceeds the capacity, and their `AddRange` throws when the new length exceeds both twice the capacity and the number added (`FastLists.RemoveRangeAsWrittenThrowsIff`, `FastLists.AddRangeAsWrittenFitsIff`, `FastLists.TweenerListsAsWrittenThrow`). The members below use the corrected removal and a plain append, so they succeed where the source throws.
- `TransformSlots.SlotLists.RemoveRange` and `SingleTweener.SingleTransformTweener.RemoveSlots` never throw. In the source, on full lists of 10000 slots, any removal starting at slot 1 or later throws.
- `SingleTweener.SingleTransformTweener.RecycleMarked` is the recycle pass over non-throwing removals. Where a source removal throws, the source's pass stops part way and the model's does not.
- `BatchPasses.RemoveBatchData` and `BatchTweener.BatchTransformTweener.RemoveSlots` never throw. In the source, recycling the second of two 5000-slot batches calls `RemoveRange(5000, 5000)` on full lists of capacity 10000 and throws.
- `LegacyCompaction.LegacySlots.RemoveRange` and `LegacyBatchTweener.LegacyBatchTransformTweener.RemoveSlots` never throw. The same inputs as for the newer batch tweener make the source throw.
- `BatchTweener.BatchTransformTweener.AddBatch` and `BatchTweener.BatchTransformTweener.AppendBatchEntry` append the slice's transforms without `AddRange`'s capacity rule. The source throws, for example, on a batch of 20000 slots added after a batch of one slot.
- `LegacyBatchTweener.LegacyBatchTransformTweener.BatchRotate` and `LegacyBatchTweener.LegacyBatchTransformTweener.BatchRotateSlice` create their slots with the as-written `LegacyRotateState`, as the source does. The corrected state, `LegacyBatchTweener.LegacyRotateStateIntended`, is proved about but not used by them (see Findings).
- `LegacyBatchTweener.LegacyBatchTransformTweener.AddBatch` appends the targets in the same way and does not model the same `AddRange` throw.

## Findings

| source | as written | input that shows it | evidently intended | confidence | as-written member | corrected member |
|---|---|---|---|---|---|---|
| Unity/Assets/JCMG/JTween/Collections/FastList.cs:177-197 | `AddRange` grows the buffer to the larger of twice the capacity and the number of added items, ignoring the items already held | a full list of capacity 5 gets 20 more items: it grows to 20, and `Array.Copy` throws `ArgumentException` because 25 items do not fit | grow to at least `length + n` | not executed | `FastLists.AddRangeAsWrittenOverruns`, `FastLists.AddRangeAsWrittenFitsIff` | `FastLists.GrowthTarget` |
| Unity/Assets/JCMG/JTween/Collections/FastList.cs:199-207 | `RemoveRange` copies `Length - n` elements starting at `index + n`, which reaches `index` elements past the live part | a full buffer of 20 with `index` 5 and `n` 5: the copy's source range would end 5 elements past the buffer, so `Array.Copy` throws `ArgumentException` | copy the `Length - index - n` elements after the removed range | not executed | `FastLists.RemoveRangeAsWrittenOverruns`, `FastLists.RemoveRangeAsWrittenContents` | `FastLists.FastList.RemoveRange` |
| JTween/JobRunners/BatchTransformTweener.cs:484 | the batch drain switches on the handle's current action type, not on the type of the queued command | Restart then Pause on one batch in the same frame: both commands drain as Pause, and the batch clock is never restarted | each queued command applies its own action type | not executed | `BatchPasses.BatchDrainStepAsWritten`, `BatchPasses.RestartThenPauseLosesRestart` | `BatchPasses.BatchDrainStep` |
| JTween/JobRunners/BatchTransformTweener.cs:47-49 | the slice check asserts on `fromArray` twice and never on `toArray` | 1 target, 1 from value, 0 to values, start 0, length 1 passes the check | check that `toArray` holds the slice too | not executed | `BatchTweener.SliceCheckAsWrittenMissesTo` | `BatchTweener.SliceFits` |
| Unity/Assets/JCMG/JTween/JobRunners/BatchTransformTweener.cs:287-292 | the older `BatchRotate` gives its slots a state with scaling enabled and rotation disabled | any BatchRotate batch: its scale clock has duration 0, so every frame leaves all clocks as they were and writes a NaN scale, and the rotation never moves | enable rotation only, as the newer revision's `BatchRotate` does | not executed | `LegacyBatchTweener.LegacyRotateState`, `LegacyBatchTweener.LegacyRotateSlotIsStuck` | `LegacyBatchTweener.LegacyRotateStateIntended`, `LegacyBatchTweener.LegacyRotateSlotIntendedAdvances` |
