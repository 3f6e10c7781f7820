# Per-key event-time window engine

This project models the core of `PerKeyWMAggregatingWindowWithProcessFunction`. The class is a
Flink keyed process function. For each key it keeps its own aggregating event-time windows,
tumbling or sliding:

- a window-state map from window end to (window start, accumulator);
- a set of pending timer timestamps;
- a late-records-dropped counter;
- the main output and the late-data side output.

Each element is added to every window the assigner gives it, unless that window is late beyond
recovery. A window that is already due fires at once. Otherwise the window's first element
registers a regular timer at the window's max timestamp. A cleanup timer is also registered at the
window's saturating cleanup time (`maxTimestamp + allowedLateness`) when one is needed. If no
window accepted the element and it is late, it goes to the side output, or the drop counter rises
by one. Then every timer that is due at the updated watermark is removed, sorted, and fired in
ascending order. Each fired timestamp `t` is decoded twice, through an offset encoding:

- as a regular timer, it names the state key `t + 1`;
- as a cleanup timer, it names the state key `(t - allowedLateness) + 1`.

Files and modules:

- `longs.dfy` (`Longs`): Java `long` and its wrap-around `+` and `-`.
- `wrappers.dfy` (`Wrappers`): `Option`, and `Outcome` for argument checks that can fail.
- `windows.dfy` (`TimeWindows`): Flink's `TimeWindow`; the cleanup time; the two lateness checks;
  the timer encodings with their round trips; and the underflow finding.
- `config.dfy` (`Config`): the assigners, the trigger results and the builder checks.
- `engine_spec.dfy` (`EngineSpec`): the engine as functions on a `State` value, plus the lemmas
  that state its properties. These include the "no leak" invariant `Inv`: every window-state entry
  has its cleanup timer pending, unless its cleanup time saturates at `Long.MAX_VALUE`.
- `engine.dfy` (`WindowEngine`): the engine as the class `WindowOperator`. Its fields are updated
  in place. The public operations (the constructor, the three builders, `ProcessElement` and
  `ProcessTimers`) keep `Valid()`, which includes `Inv`. `ProcessElement`, `ProcessTimers` and
  their step methods (`AddToWindows`, `AddToWindow`, `RemoveDueTimers`, `FireInOrder`, `OnTimer`)
  each state their new state, through the `EngineSpec` function of the operation where there is
  one. `EmitWindowContents`, `RegisterRegularEndTimer`, `RegisterCleanupTimer` and `SideOutput`
  state directly what they append or add.

Two details of the code shape the model:

- The regular timer is stored at `maxTimestamp` (line 254) and decoded by `t + 1` (line 316).
- After an immediate purge-mode fire, `cleanupTimerNeeded` keeps
  `firstInWindow && allowedLateness > 0` (lines 134, 139-143), so a cleanup timer is still
  registered then; only in non-purge mode is it reset to `firstInWindow`. By
  `TimeWindows.ImmediateFireNeedsLateness`, an immediate fire needs a positive lateness anyway.

## Model

| member | source | states |
|---|---|---|
| Longs.Add | src/main/java/com/ververica/windowing/PerKeyWMAggregatingWindowWithProcessFunction.java:280 | Java long `+`: the exact sum when it fits, else the sum shifted by 2^64 (a negative result on overflow, a non-negative one on underflow) |
| Longs.Sub | src/main/java/com/ververica/windowing/PerKeyWMAggregatingWindowWithProcessFunction.java:304 | Java long `-`: the exact difference when it fits, else shifted by 2^64 with the sign that wrap-around gives |
| TimeWindows.MaxTimestamp | src/main/java/com/ververica/windowing/PerKeyWMAggregatingWindowWithProcessFunction.java:135 | a window's max timestamp is `end - 1` and lies below `Long.MAX_VALUE` whenever `end > Long.MIN_VALUE` |
| TimeWindows.CleanupTime | src/main/java/com/ververica/windowing/PerKeyWMAggregatingWindowWithProcessFunction.java:279-282 | the cleanup time is never before the max timestamp; it is `maxTimestamp + allowedLateness` when that fits in a long, and `Long.MAX_VALUE` otherwise |
| TimeWindows.CleanupStateKey | src/main/java/com/ververica/windowing/PerKeyWMAggregatingWindowWithProcessFunction.java:301-306 | the corrected cleanup decoding: a key it returns is above `Long.MIN_VALUE` and agrees with the as-written `cleanupTimeToStateKey` |
| TimeWindows.RegularTimerRoundTrip | src/main/java/com/ververica/windowing/PerKeyWMAggregatingWindowWithProcessFunction.java:253-255 | a regular timer, stored at `maxTimestamp` and decoded by `regularEndTimeToStateKey` (lines 315-317), gives back `windowToStateKey(w) == w.end` (lines 290-292) |
| TimeWindows.CleanupTimerRoundTrip | src/main/java/com/ververica/windowing/PerKeyWMAggregatingWindowWithProcessFunction.java:279-306 | a cleanup time that does not saturate decodes to the window's state key, both as written and corrected |
| TimeWindows.CleanupStateKeyDecodes | src/main/java/com/ververica/windowing/PerKeyWMAggregatingWindowWithProcessFunction.java:301-306 | the corrected decoding of `t` yields key `w.end` if and only if `w` has cleanup time `t` (and `end - 1` does not wrap) |
| TimeWindows.TimerKindsCoincide | src/main/java/com/ververica/windowing/PerKeyWMAggregatingWindowWithProcessFunction.java:190-199 | a window's regular and cleanup timers fall on the same timestamp if and only if the lateness is 0 |
| TimeWindows.ImmediateFireNeedsLateness | src/main/java/com/ververica/windowing/PerKeyWMAggregatingWindowWithProcessFunction.java:120-135 | a window that passes the late check (`isWindowLate`, lines 235-237) and is already due exists only with a positive lateness, and its cleanup time is then after its max timestamp |
| TimeWindows.CleanupKeyUnderflow | src/main/java/com/ververica/windowing/PerKeyWMAggregatingWindowWithProcessFunction.java:301-306 | for lateness 100, the as-written decoding of timer `Long.MIN_VALUE + 5` wraps to the key of a window near `Long.MAX_VALUE` whose cleanup time is not that timer; the corrected decoding gives no key |
| Config.CheckAssigner | src/main/java/com/ververica/windowing/PerKeyWMAggregatingWindowWithProcessFunction.java:93-100 | the assigner checks pass if and only if the assigner is a tumbling or sliding event-time assigner |
| Config.CheckTriggerMode | src/main/java/com/ververica/windowing/PerKeyWMAggregatingWindowWithProcessFunction.java:380-383 | the fire-mode check passes if and only if the mode is FIRE or FIRE_AND_PURGE; an accepted mode purges if and only if it is FIRE_AND_PURGE |
| Config.CheckAllowedLateness | src/main/java/com/ververica/windowing/PerKeyWMAggregatingWindowWithProcessFunction.java:363 | the lateness check passes if and only if the lateness is non-negative |
| EngineSpec.RegisterCleanupTimer | src/main/java/com/ververica/windowing/PerKeyWMAggregatingWindowWithProcessFunction.java:262-270 | registering a cleanup timer never adds `Long.MAX_VALUE` |
| EngineSpec.Insert | src/main/java/com/ververica/windowing/PerKeyWMAggregatingWindowWithProcessFunction.java:184 | inserting into a sorted list keeps it sorted, and the result holds the input's elements plus exactly the one inserted |
| EngineSpec.SortTimes | src/main/java/com/ververica/windowing/PerKeyWMAggregatingWindowWithProcessFunction.java:184 | `Collections.sort` on the times to fire: the result is sorted and a permutation of the input |
| EngineSpec.StrictlyIncreasingUnique | src/main/java/com/ververica/windowing/PerKeyWMAggregatingWindowWithProcessFunction.java:183-187 | two strictly ascending sequences with the same elements are equal, so the firing order is fixed by the set of due timers |
| EngineSpec.SortedSetListing | src/main/java/com/ververica/windowing/PerKeyWMAggregatingWindowWithProcessFunction.java:174-184 | a sorted list holding each element of a set once is strictly ascending and has exactly the set's elements |
| EngineSpec.SortedSetIsAscending | src/main/java/com/ververica/windowing/PerKeyWMAggregatingWindowWithProcessFunction.java:174-184 | any sorted list holding each due timer once is the ascending order of the due timers |
| EngineSpec.AcceptWindowEffect | src/main/java/com/ververica/windowing/PerKeyWMAggregatingWindowWithProcessFunction.java:123-152 | for an accepted window the entry at `w.end` becomes `(start, add(value, acc))`, with start and acc kept or created; it is gone after an immediate purge-mode fire; an immediate fire emits the updated result once; no other entry changes; the timers added are exactly the regular timer (first element, not due) and the cleanup timer (first element, with positive lateness or a non-purge immediate fire), never at `Long.MAX_VALUE` |
| EngineSpec.AcceptWindowInv | src/main/java/com/ververica/windowing/PerKeyWMAggregatingWindowWithProcessFunction.java:123-152 | one accepted window keeps the state invariant: no entry is left without its cleanup timer |
| EngineSpec.AddToWindowsInv | src/main/java/com/ververica/windowing/PerKeyWMAggregatingWindowWithProcessFunction.java:117-153 | the whole window loop keeps the state invariant |
| EngineSpec.LateWindowsUntouched | src/main/java/com/ververica/windowing/PerKeyWMAggregatingWindowWithProcessFunction.java:118-122 | when every window with end `k` is late, the loop neither creates, changes nor removes the entry at `k` |
| EngineSpec.AddToWindowsTimers | src/main/java/com/ververica/windowing/PerKeyWMAggregatingWindowWithProcessFunction.java:118-153 | the window loop only adds timers; each one is the regular or cleanup timer of a window that was not late; counter and side output are untouched |
| EngineSpec.SkippedElementAddsNothing | src/main/java/com/ververica/windowing/PerKeyWMAggregatingWindowWithProcessFunction.java:117-122 | for an element whose windows are all late (or that has no windows), the window loop changes neither the window state nor the timers |
| EngineSpec.OnTimerEffect | src/main/java/com/ververica/windowing/PerKeyWMAggregatingWindowWithProcessFunction.java:190-220 | `onTimer(t)` emits if and only if an entry exists at `t + 1`, for window `(start, t + 1)` at event time `t`; purge mode then removes that entry; every window whose cleanup time is `t` loses its entry; no entry is added or changed, and only those entries are removed; with lateness 0 the fired entry is always gone; timers, counter and side output are untouched |
| EngineSpec.OnTimerAsWritten | src/main/java/com/ververica/windowing/PerKeyWMAggregatingWindowWithProcessFunction.java:198-211 | `onTimer(t)` as written: no entry is added or changed, and the key `cleanupTimeToStateKey(t)` is always gone afterwards, even when its subtraction wrapped |
| EngineSpec.OnTimerAgrees | src/main/java/com/ververica/windowing/PerKeyWMAggregatingWindowWithProcessFunction.java:198-211 | whenever `t - allowedLateness` does not underflow, the as-written `onTimer` and the corrected one give the same state, so the engine's properties hold of the code there |
| EngineSpec.OnTimerUnderflow | src/main/java/com/ververica/windowing/PerKeyWMAggregatingWindowWithProcessFunction.java:198-211 | with lateness 100, a state that keeps the invariant and holds windows near `Long.MIN_VALUE` and `Long.MAX_VALUE`, with the timers the window loop registers for them, has the pending timer `MIN + 5`; the as-written `onTimer` at it deletes the second window's state although that window's cleanup time is `Long.MAX_VALUE`, and the corrected one keeps it |
| EngineSpec.FireTimersFrame | src/main/java/com/ververica/windowing/PerKeyWMAggregatingWindowWithProcessFunction.java:185-187 | firing a list of timers never adds or changes an entry, removes every entry whose cleanup time is in the list, and leaves timers, counter and side output alone |
| EngineSpec.FireTimersInOrder | src/main/java/com/ververica/windowing/PerKeyWMAggregatingWindowWithProcessFunction.java:185-187 | firing a strictly ascending list only appends emissions, at most one per timer, with strictly ascending event times taken from the list, each for the window ending just after its event time |
| EngineSpec.DrainBySorting | src/main/java/com/ververica/windowing/PerKeyWMAggregatingWindowWithProcessFunction.java:174-187 | firing whatever sorted list of the due timers the iterator and sort produce is the same as firing the due timers in ascending order |
| EngineSpec.DrainRemainingTimers | src/main/java/com/ververica/windowing/PerKeyWMAggregatingWindowWithProcessFunction.java:174-182 | after `processTimers(wm)` the timers are exactly the old ones above `wm` |
| EngineSpec.DrainFiresInOrder | src/main/java/com/ververica/windowing/PerKeyWMAggregatingWindowWithProcessFunction.java:183-187 | draining only appends emissions, with strictly ascending event times; each is a due timer, for the window ending just after it |
| EngineSpec.DrainIdle | src/main/java/com/ververica/windowing/PerKeyWMAggregatingWindowWithProcessFunction.java:171-188 | with no due timer, draining changes nothing: no emission and no state change |
| EngineSpec.DrainInv | src/main/java/com/ververica/windowing/PerKeyWMAggregatingWindowWithProcessFunction.java:171-212 | draining keeps the state invariant: an entry whose cleanup timer was due has been removed |
| EngineSpec.ProcessElementInv | src/main/java/com/ververica/windowing/PerKeyWMAggregatingWindowWithProcessFunction.java:107-169 | one element keeps the state invariant |
| EngineSpec.ProcessElementLateRouting | src/main/java/com/ververica/windowing/PerKeyWMAggregatingWindowWithProcessFunction.java:155-165 | the element goes to the side output, or the counter rises by exactly one, if and only if no window accepted it and `timestamp + allowedLateness <= watermark` (`isElementLate`, lines 244-246); which of the two depends on whether a tag is set; otherwise neither changes |
| WindowEngine.WindowOperator.constructor | src/main/java/com/ververica/windowing/PerKeyWMAggregatingWindowWithProcessFunction.java:85-104 | an engine built from a checked assigner is valid and empty, with lateness 0, FIRE mode and no side output |
| WindowEngine.NewWindowOperator | src/main/java/com/ververica/windowing/PerKeyWMAggregatingWindowWithProcessFunction.java:85-104 | an engine exists if and only if the assigner checks pass; it is fresh, valid and empty |
| WindowEngine.WindowOperator.AllowedLateness | src/main/java/com/ververica/windowing/PerKeyWMAggregatingWindowWithProcessFunction.java:360-367 | the builder sets the lateness if and only if it is non-negative, and keeps the engine valid |
| WindowEngine.WindowOperator.TriggerMode | src/main/java/com/ververica/windowing/PerKeyWMAggregatingWindowWithProcessFunction.java:378-386 | the builder sets the fire mode if and only if it is FIRE or FIRE_AND_PURGE |
| WindowEngine.WindowOperator.SideOutputLateData | src/main/java/com/ververica/windowing/PerKeyWMAggregatingWindowWithProcessFunction.java:370-375 | the builder sets the side-output tag if and only if one is given |
| WindowEngine.WindowOperator.EmitWindowContents | src/main/java/com/ververica/windowing/PerKeyWMAggregatingWindowWithProcessFunction.java:215-220 | appends exactly one emission: the aggregate result, the window and the window's max timestamp |
| WindowEngine.WindowOperator.RegisterRegularEndTimer | src/main/java/com/ververica/windowing/PerKeyWMAggregatingWindowWithProcessFunction.java:253-255 | adds exactly the window's max timestamp to the timers |
| WindowEngine.WindowOperator.RegisterCleanupTimer | src/main/java/com/ververica/windowing/PerKeyWMAggregatingWindowWithProcessFunction.java:262-270 | adds the cleanup time, unless it is `Long.MAX_VALUE` |
| WindowEngine.WindowOperator.SideOutput | src/main/java/com/ververica/windowing/PerKeyWMAggregatingWindowWithProcessFunction.java:227-229 | appends exactly the element to the side output |
| WindowEngine.WindowOperator.ProcessElement | src/main/java/com/ververica/windowing/PerKeyWMAggregatingWindowWithProcessFunction.java:107-169 | the new state is `EngineSpec.ProcessElement` of the old state (window loop, late routing, draining), and the invariant holds |
| WindowEngine.WindowOperator.AddToWindows | src/main/java/com/ververica/windowing/PerKeyWMAggregatingWindowWithProcessFunction.java:116-153 | the loop leaves the state `EngineSpec.AddToWindows` gives, and `isSkippedElement` is true if and only if every window was late |
| WindowEngine.WindowOperator.AddToWindow | src/main/java/com/ververica/windowing/PerKeyWMAggregatingWindowWithProcessFunction.java:123-152 | one loop body for a window that is not late leaves the state `EngineSpec.AcceptWindow` gives |
| WindowEngine.WindowOperator.ProcessTimers | src/main/java/com/ververica/windowing/PerKeyWMAggregatingWindowWithProcessFunction.java:171-188 | the new state is `EngineSpec.Drain` of the old one (due timers removed and fired in ascending order), and the invariant holds |
| WindowEngine.WindowOperator.RemoveDueTimers | src/main/java/com/ververica/windowing/PerKeyWMAggregatingWindowWithProcessFunction.java:174-182 | the iterator loop removes exactly the due timers and collects each of them once |
| WindowEngine.WindowOperator.FireInOrder | src/main/java/com/ververica/windowing/PerKeyWMAggregatingWindowWithProcessFunction.java:185-187 | the loop leaves the state `EngineSpec.FireTimers` gives for the list, first to last |
| WindowEngine.WindowOperator.OnTimer | src/main/java/com/ververica/windowing/PerKeyWMAggregatingWindowWithProcessFunction.java:190-212 | the new state is `EngineSpec.OnTimer` of the old one, whose effect `EngineSpec.OnTimerEffect` states |

## Left out

- `open`, the metric-group counter and the `MapState` descriptors are Flink runtime wiring. The state is a plain map, a set and a `nat` counter.
- `setWindowContext` is left out: it builds a processing-time context, and the engine uses event time only.
- The type plumbing is left out: `produces`, `getProducedType`, `getProcessWindowFunctionReturnType` and the logger.
- `windowAssigner.assignWindows` is left out, because its geometry lives in Flink's library. The windows are an input. `EngineSpec.AssignerOutput` requires only that each window contains the element's timestamp. None of the proved properties needs the windows to share one length.
- The watermark tracker (`KeyedBoundedOutOfOrdernessWatermark`) is not part of this model. The current and updated watermarks are method inputs, and no monotonicity is assumed.
- The `TimestampedCollector` cast and `ctx.output` are Flink I/O. Emissions and side-output elements are appended to two sequences. An emission's timestamp field stands for the collector's absolute timestamp.
- `PassThroughWindowFunction` is the identity on the aggregate result: an emission carries the result and its window unchanged. The key is not modelled, because the model holds one key's state.
- Keyed partitioning, parallelism and checkpointing are left out: only one key's state is modelled.
- The null checks on the assigner and the aggregate function are not modelled: Dafny values cannot be null. A missing side-output tag is `None`.
- WindowEngine.WindowOperator.AllowedLateness: requires the window state to be empty. The builder runs before any element is processed, and changing the lateness afterwards would break the cleanup invariant.
- WindowEngine.WindowOperator.RemoveDueTimers: the timers are removed in an unspecified order, as a set iterator gives them. The contract states the removed set and the multiset collected, not the order.
- Config.CheckAssigner: the "only event time supported" branch can never fail for the two accepted assigners. It is kept as written.
- `numLateRecordsDropped` is an unbounded `nat`. A Flink counter is a `long`, and its wrap-around after 2^63 drops is not modelled.
- `processElement`'s loop is split into the method `AddToWindows`, whose body is `AddToWindow`. `processTimers` is split into `RemoveDueTimers`, `SortTimes` and `FireInOrder`. The order of the steps is that of the source.
- EngineSpec.OnTimer, WindowEngine.WindowOperator.OnTimer: the engine uses the corrected decoding `CleanupStateKey`. When `t - allowedLateness < Long.MIN_VALUE` it removes nothing, where line 211 removes the wrapped key (see Findings). `EngineSpec.OnTimerAsWritten` models line 211 as written, and `EngineSpec.OnTimerAgrees` proves the two equal everywhere else.

## Findings

| source | as written | input that shows it | evidently intended | confidence | as-written member | corrected member |
|---|---|---|---|---|---|---|
| src/main/java/com/ververica/windowing/PerKeyWMAggregatingWindowWithProcessFunction.java:301-306 | `cleanupTimeToStateKey(t)` computes `(t - allowedLateness) + 1` in long arithmetic, so the subtraction wraps around when `t - allowedLateness < Long.MIN_VALUE` | lateness 100 and the regular timer `t = Long.MIN_VALUE + 5` of window `[MIN, MIN + 6)`: the cleanup decoding gives `Long.MAX_VALUE - 93`, the key of window `[MAX - 99, MAX - 93)`, whose cleanup time is `Long.MAX_VALUE`; firing `t` removes that unrelated window's state | decode `t` only to the key of a window whose cleanup time really is `t`, and remove nothing when there is none | not executed | EngineSpec.OnTimerAsWritten, EngineSpec.OnTimerUnderflow, TimeWindows.CleanupKeyUnderflow | TimeWindows.CleanupStateKeyDecodes, EngineSpec.OnTimerEffect |
