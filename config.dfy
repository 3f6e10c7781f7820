/**
 * Configuration surface of the window engine: the supported window assigners, Flink's trigger
 * results with the two supported fire modes, and the builder's argument checks.
 */
module Config {
  import opened Longs
  import opened Wrappers

  /** The window assigners an engine may be built with; all others stand in `OtherAssigner`. */
  datatype WindowAssigner =
    | TumblingEventTimeWindows
    | SlidingEventTimeWindows
    | OtherAssigner(name: string, eventTime: bool)

  /** `WindowAssigner.isEventTime()`: both fixed-length event-time assigners answer true. */
  predicate IsEventTime(a: WindowAssigner) {
    match a
    case TumblingEventTimeWindows => true
    case SlidingEventTimeWindows => true
    case OtherAssigner(_, eventTime) => eventTime
  }

  /** The constructor's checks: a sliding or tumbling assigner, and event time. */
  function CheckAssigner(a: WindowAssigner): (r: Outcome)
    ensures r.Pass? <==> a.TumblingEventTimeWindows? || a.SlidingEventTimeWindows?
  {
    if !(a.SlidingEventTimeWindows? || a.TumblingEventTimeWindows?) then
      Fail("unsupported window assigner: not a sliding or tumbling event-time window assigner")
    else if !IsEventTime(a) then
      Fail("only event time supported")
    else
      Pass
  }

  /** Flink's `TriggerResult`. */
  datatype TriggerResult = CONTINUE | FIRE_AND_PURGE | FIRE | PURGE

  /** `TriggerResult.isPurge()`. */
  predicate IsPurge(r: TriggerResult) {
    r == FIRE_AND_PURGE || r == PURGE
  }

  /** The fire modes the engine supports. */
  predicate SupportedFireMode(r: TriggerResult) {
    r == FIRE || r == FIRE_AND_PURGE
  }

  /** The `triggerMode` builder's check: only FIRE or FIRE_AND_PURGE. */
  function CheckTriggerMode(mode: TriggerResult): (r: Outcome)
    ensures r.Pass? <==> SupportedFireMode(mode)
    ensures r.Pass? ==> (IsPurge(mode) <==> mode == FIRE_AND_PURGE)
  {
    if mode == FIRE || mode == FIRE_AND_PURGE then Pass else Fail("unsupported window fire mode")
  }

  /** The `allowedLateness` builder's check on the lateness in milliseconds. */
  function CheckAllowedLateness(millis: Long): (r: Outcome)
    ensures r.Pass? <==> millis >= 0
  {
    if millis >= 0 then Pass else Fail("The allowed lateness cannot be negative.")
  }
}
