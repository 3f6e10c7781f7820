/**
 * The per-key window engine as an object: window state, pending timers, the late-records-dropped
 * counter and the two outputs are fields that `ProcessElement` and `ProcessTimers` update in place.
 * The public operations (the constructor, the builders, `ProcessElement` and `ProcessTimers`) keep
 * `Valid()`, which holds the engine's state invariant. Each step method's ensures give its new
 * state, through the function of module EngineSpec for that step where there is one.
 */
module WindowEngine {
  import opened Longs
  import opened Wrappers
  import opened TimeWindows
  import opened Config
  import opened EngineSpec

  class WindowOperator<In, Acc, Out> {
    const windowAssigner: WindowAssigner
    const windowAggregateFunction: Aggregate<In, Acc, Out>

    var allowedLateness: Lateness
    var windowFireMode: TriggerResult
    var lateDataOutputTag: Option<string>

    /** Window end to (window start, accumulator). */
    var windowState: map<Long, (Long, Acc)>
    /** Pending timer timestamps, regular and cleanup alike. */
    var timerState: set<Long>
    var numLateRecordsDropped: nat
    /** Records emitted on the main output, in order. */
    var output: seq<Emission<Out>>
    /** Elements sent to the late-data side output, in order. */
    var sideOutput: seq<In>

    /** The configuration as the processing functions see it. */
    function CurrentSettings(): Settings
      reads this
    {
      Settings(allowedLateness, IsPurge(windowFireMode), lateDataOutputTag.Some?)
    }

    /** The per-key state as a value. */
    function CurrentState(): State<In, Acc, Out>
      reads this
    {
      State(windowState, timerState, numLateRecordsDropped, output, sideOutput)
    }

    ghost predicate Valid()
      reads this
    {
      && CheckAssigner(windowAssigner).Pass?
      && SupportedFireMode(windowFireMode)
      && Inv(CurrentSettings(), CurrentState())
    }

    /** The constructor, once its assigner checks have passed: no lateness, FIRE mode, no side output. */
    constructor (windowAssigner: WindowAssigner, windowAggregateFunction: Aggregate<In, Acc, Out>)
      requires CheckAssigner(windowAssigner).Pass?
      ensures Valid()
      ensures this.windowAssigner == windowAssigner && this.windowAggregateFunction == windowAggregateFunction
      ensures allowedLateness == 0 && windowFireMode == FIRE && lateDataOutputTag == None
      ensures windowState == map[] && timerState == {} && numLateRecordsDropped == 0
      ensures output == [] && sideOutput == []
    {
      this.windowAssigner := windowAssigner;
      this.windowAggregateFunction := windowAggregateFunction;
      allowedLateness := 0;
      windowFireMode := FIRE;
      lateDataOutputTag := None;
      windowState := map[];
      timerState := {};
      numLateRecordsDropped := 0;
      output := [];
      sideOutput := [];
    }

    /** The `allowedLateness` builder: refuses a negative lateness. */
    method AllowedLateness(millis: Long) returns (r: Outcome)
      requires Valid()
      requires windowState == map[]
      modifies this`allowedLateness
      ensures Valid()
      ensures r == CheckAllowedLateness(millis)
      ensures allowedLateness == if r.Pass? then millis else old(allowedLateness)
    {
      r := CheckAllowedLateness(millis);
      if r.Pass? {
        allowedLateness := millis;
      }
    }

    /** The `triggerMode` builder: accepts only FIRE and FIRE_AND_PURGE. */
    method TriggerMode(mode: TriggerResult) returns (r: Outcome)
      requires Valid()
      modifies this`windowFireMode
      ensures Valid()
      ensures r == CheckTriggerMode(mode)
      ensures windowFireMode == if r.Pass? then mode else old(windowFireMode)
    {
      r := CheckTriggerMode(mode);
      if r.Pass? {
        windowFireMode := mode;
      }
    }

    /** The `sideOutputLateData` builder: refuses a missing tag. */
    method SideOutputLateData(outputTag: Option<string>) returns (r: Outcome)
      requires Valid()
      modifies this`lateDataOutputTag
      ensures Valid()
      ensures r.Pass? <==> outputTag.Some?
      ensures lateDataOutputTag == if r.Pass? then outputTag else old(lateDataOutputTag)
    {
      if outputTag.None? {
        r := Fail("Side output tag must not be null.");
      } else {
        r := Pass;
        lateDataOutputTag := outputTag;
      }
    }

    /** `emitWindowContents`: emits the window's result with the window's max timestamp as event time. */
    method EmitWindowContents(window: Window, contents: Acc)
      modifies this`output
      ensures output == old(output) + [Emission(MaxTimestamp(window), window, windowAggregateFunction.getResult(contents))]
    {
      var result := windowAggregateFunction.getResult(contents);
      output := output + [Emission(MaxTimestamp(window), window, result)];
    }

    /** `registerRegularEndTimer`: a timer at the window's max timestamp. */
    method RegisterRegularEndTimer(window: Window)
      modifies this`timerState
      ensures timerState == old(timerState) + {MaxTimestamp(window)}
    {
      timerState := timerState + {MaxTimestamp(window)};
    }

    /** `registerCleanupTimer`: a timer at the window's cleanup time, unless that is "end of time". */
    method RegisterCleanupTimer(window: Window)
      modifies this`timerState
      ensures timerState == EngineSpec.RegisterCleanupTimer(old(timerState), window, allowedLateness)
    {
      var cleanupTime := CleanupTime(window, allowedLateness);
      if cleanupTime == LONG_MAX {
        return;
      }
      timerState := timerState + {cleanupTime};
    }

    /** `sideOutput`: sends a skipped late element to the late-data side output. */
    method SideOutput(element: In)
      modifies this`sideOutput
      ensures sideOutput == old(sideOutput) + [element]
    {
      sideOutput := sideOutput + [element];
    }

    /**
     * `processElement` for an element with the given value and timestamp, the assigner's windows
     * for it, the watermark before the element and the watermark after updating it.
     */
    method ProcessElement(value: In, timestamp: Long, windows: seq<Window>, currentWatermark: Long, updatedWatermark: Long)
      requires Valid()
      requires AssignerOutput(timestamp, windows)
      modifies this`windowState, this`timerState, this`numLateRecordsDropped, this`output, this`sideOutput
      ensures Valid()
      ensures CurrentState() == EngineSpec.ProcessElement(CurrentSettings(), windowAggregateFunction, old(CurrentState()), value, timestamp,
                                                   windows, currentWatermark, updatedWatermark)
    {
      ghost var st0 := CurrentState();
      var isSkippedElement := AddToWindows(value, windows, currentWatermark);
      ghost var added := CurrentState();
      AddToWindowsInv(CurrentSettings(), windowAggregateFunction, st0, value, timestamp, currentWatermark, windows);

      if isSkippedElement && IsElementLate(timestamp, allowedLateness, currentWatermark) {
        if lateDataOutputTag.Some? {
          SideOutput(value);
        } else {
          numLateRecordsDropped := numLateRecordsDropped + 1;
        }
      }
      ghost var routed := CurrentState();
      assert routed == RouteLate(CurrentSettings(), added, value, timestamp, isSkippedElement, currentWatermark);
      assert routed.timers == added.timers && routed.windowState == added.windowState;

      ProcessTimers(updatedWatermark);
    }

    /**
     * `processElement`'s loop over the assigner's windows: skips each late window and adds the
     * element to every other one; the result tells whether every window was skipped.
     */
    method AddToWindows(value: In, windows: seq<Window>, currentWatermark: Long) returns (isSkippedElement: bool)
      modifies this`windowState, this`timerState, this`output
      ensures CurrentState() == EngineSpec.AddToWindows(CurrentSettings(), windowAggregateFunction, old(CurrentState()), value, currentWatermark, windows)
      ensures isSkippedElement == Skipped(allowedLateness, currentWatermark, windows)
    {
      isSkippedElement := true;
      var i := 0;
      while i < |windows|
        invariant 0 <= i <= |windows|
        invariant CurrentState() == EngineSpec.AddToWindows(CurrentSettings(), windowAggregateFunction, old(CurrentState()), value, currentWatermark, windows[..i])
        invariant isSkippedElement == Skipped(allowedLateness, currentWatermark, windows[..i])
      {
        var window := windows[i];
        assert windows[..i + 1][..i] == windows[..i];
        if !IsWindowLate(window, allowedLateness, currentWatermark) {
          isSkippedElement := false;
          AddToWindow(value, window, currentWatermark);
        }
        i := i + 1;
      }
      assert windows[..|windows|] == windows;
    }

    /**
     * The body of `processElement`'s window loop for a window that is not late: create or update its
     * accumulator, fire at once if the watermark has passed the window (purging in purge mode),
     * otherwise register the regular timer for a new window, and register a cleanup timer if needed.
     */
    method AddToWindow(value: In, window: Window, currentWatermark: Long)
      modifies this`windowState, this`timerState, this`output
      ensures CurrentState() == AcceptWindow(CurrentSettings(), windowAggregateFunction, old(CurrentState()), value, currentWatermark, window)
    {
      var stateKey := WindowToStateKey(window);
      var firstInWindow := stateKey !in windowState;
      var stateEntry := if firstInWindow then (window.start, windowAggregateFunction.createAccumulator)
                        else windowState[stateKey];
      stateEntry := (stateEntry.0, windowAggregateFunction.add(value, stateEntry.1));
      windowState := windowState[stateKey := stateEntry];

      var cleanupTimerNeeded := firstInWindow && allowedLateness > 0;
      if MaxTimestamp(window) <= currentWatermark {
        EmitWindowContents(window, stateEntry.1);
        if IsPurge(windowFireMode) {
          windowState := windowState - {stateKey};
        } else {
          cleanupTimerNeeded := firstInWindow;
        }
      } else if firstInWindow {
        RegisterRegularEndTimer(window);
      }

      if cleanupTimerNeeded {
        RegisterCleanupTimer(window);
      }
    }

    /** `processTimers`: removes every timer due at the watermark, sorts them, and fires each in turn. */
    method ProcessTimers(currentWatermark: Long)
      requires Valid()
      modifies this`windowState, this`timerState, this`output
      ensures Valid()
      ensures CurrentState() == Drain(CurrentSettings(), windowAggregateFunction, old(CurrentState()), currentWatermark)
    {
      var timesToFire := RemoveDueTimers(currentWatermark);
      timesToFire := SortTimes(timesToFire);
      DrainBySorting(CurrentSettings(), windowAggregateFunction, old(CurrentState()), currentWatermark, timesToFire);
      FireInOrder(timesToFire);
      DrainInv(CurrentSettings(), windowAggregateFunction, old(CurrentState()), currentWatermark);
    }

    /**
     * The first half of `processTimers`: walks the timers, removing each one that is due and
     * collecting it in the list of times to fire.
     */
    method RemoveDueTimers(currentWatermark: Long) returns (timesToFire: seq<Long>)
      modifies this`timerState
      ensures timerState == old(timerState) - DueTimers(old(timerState), currentWatermark)
      ensures multiset(timesToFire) == multiset(DueTimers(old(timerState), currentWatermark))
    {
      var it := timerState;
      timesToFire := [];
      while it != {}
        invariant it <= timerState <= old(timerState)
        invariant multiset(timesToFire) == multiset(old(timerState) - timerState)
        invariant forall t :: t in old(timerState) && t !in it ==> (t in timerState <==> t > currentWatermark)
        decreases |it|
      {
        var timestamp :| timestamp in it;
        it := it - {timestamp};
        if timestamp <= currentWatermark {
          assert old(timerState) - (timerState - {timestamp}) == (old(timerState) - timerState) + {timestamp};
          timesToFire := timesToFire + [timestamp];
          timerState := timerState - {timestamp};
        }
      }
      assert old(timerState) - timerState == DueTimers(old(timerState), currentWatermark);
    }

    /** The second half of `processTimers`: `onTimer` for each of the sorted times to fire, in order. */
    method FireInOrder(timesToFire: seq<Long>)
      requires forall k :: 0 <= k < |timesToFire| ==> timesToFire[k] < LONG_MAX
      modifies this`windowState, this`output
      ensures CurrentState() == FireTimers(CurrentSettings(), windowAggregateFunction, old(CurrentState()), timesToFire)
    {
      var i := 0;
      while i < |timesToFire|
        invariant 0 <= i <= |timesToFire|
        invariant CurrentState() == FireTimers(CurrentSettings(), windowAggregateFunction, old(CurrentState()), timesToFire[..i])
      {
        assert timesToFire[..i + 1][..i] == timesToFire[..i];
        OnTimer(timesToFire[i]);
        i := i + 1;
      }
      assert timesToFire[..|timesToFire|] == timesToFire;
    }

    /**
     * `onTimer(timestamp)`: fires the window whose regular timer this is, if it has state (purging it
     * in purge mode), then removes the state of the window whose cleanup timer this is.
     */
    method OnTimer(timestamp: Long)
      requires timestamp < LONG_MAX
      modifies this`windowState, this`output
      ensures CurrentState() == EngineSpec.OnTimer(CurrentSettings(), windowAggregateFunction, old(CurrentState()), timestamp)
    {
      var windowEndStateKey := RegularEndTimeToStateKey(timestamp);
      var cleanupStateKey := CleanupStateKey(timestamp, allowedLateness);
      if windowEndStateKey in windowState {
        var currentState := windowState[windowEndStateKey];
        EmitWindowContents(Window(currentState.0, windowEndStateKey), currentState.1);
        if IsPurge(windowFireMode) {
          windowState := windowState - {windowEndStateKey};
        }
      }
      if cleanupStateKey.Some? {
        windowState := windowState - {cleanupStateKey.value};
      }
    }
  }

  /**
   * Building an engine: the constructor's checks on the window assigner, then the constructor.
   * A failed check yields no engine.
   */
  method NewWindowOperator<In, Acc, Out>(windowAssigner: WindowAssigner, windowAggregateFunction: Aggregate<In, Acc, Out>)
    returns (r: Outcome, op: WindowOperator?<In, Acc, Out>)
    ensures r == CheckAssigner(windowAssigner)
    ensures r.Pass? <==> op != null
    ensures op != null ==> fresh(op) && op.Valid() && op.CurrentState() == State(map[], {}, 0, [], [])
  {
    r := CheckAssigner(windowAssigner);
    if r.Pass? {
      op := new WindowOperator(windowAssigner, windowAggregateFunction);
    } else {
      op := null;
    }
  }
}
