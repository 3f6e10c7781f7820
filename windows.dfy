/**
 * Window arithmetic of the per-key window engine: Flink's `TimeWindow`, the cleanup time with its
 * overflow saturation, the two lateness checks, and the offset encoding that lets regular (fire)
 * timers and cleanup timers share one set of timestamps.
 */
module TimeWindows {
  import opened Longs
  import opened Wrappers

  /** Flink's `TimeWindow`: the half-open event-time interval [start, end). */
  datatype Window = Window(start: Long, end: Long)

  /** An allowed lateness in milliseconds; the builder refuses negative values. */
  type Lateness = x: int | 0 <= x <= LONG_MAX

  /** `TimeWindow.maxTimestamp()`: the last timestamp inside the window, `end - 1` as a Java long. */
  function MaxTimestamp(w: Window): (r: Long)
    ensures w.end > LONG_MIN ==> r == w.end - 1 && r < LONG_MAX
  {
    Sub(w.end, 1)
  }

  /**
   * The time at which a window's state may be discarded: `maxTimestamp + allowedLateness`, or
   * `Long.MAX_VALUE` when that sum does not fit in a long (it never wraps to a negative value).
   */
  function CleanupTime(w: Window, allowedLateness: Lateness): (r: Long)
    ensures r >= MaxTimestamp(w)
    ensures MaxTimestamp(w) + allowedLateness <= LONG_MAX ==> r == MaxTimestamp(w) + allowedLateness
    ensures MaxTimestamp(w) + allowedLateness > LONG_MAX ==> r == LONG_MAX
  {
    var cleanupTime := Add(MaxTimestamp(w), allowedLateness);
    if cleanupTime >= MaxTimestamp(w) then cleanupTime else LONG_MAX
  }

  /** A window is late beyond recovery once the watermark has reached its cleanup time. */
  predicate IsWindowLate(w: Window, allowedLateness: Lateness, currentWatermark: Long) {
    CleanupTime(w, allowedLateness) <= currentWatermark
  }

  /** An element is late when `timestamp + allowedLateness` (a Java long sum) is at most the watermark. */
  predicate IsElementLate(timestamp: Long, allowedLateness: Lateness, currentWatermark: Long) {
    Add(timestamp, allowedLateness) <= currentWatermark
  }

  /** A window's state is stored under its end timestamp. */
  function WindowToStateKey(w: Window): Long {
    w.end
  }

  /** Decodes a regular timer (registered at `maxTimestamp`) back to its window's state key. */
  function RegularEndTimeToStateKey(windowMaxTime: Long): Long {
    Add(windowMaxTime, 1)
  }

  /**
   * Decodes a cleanup timer back to its window's state key, AS WRITTEN: `(t - allowedLateness) + 1`
   * in Java long arithmetic; the argument check refuses `Long.MAX_VALUE`. The subtraction wraps
   * around when `t - allowedLateness < Long.MIN_VALUE` (see CleanupKeyUnderflow).
   */
  function CleanupTimeToStateKey(cleanupTime: Long, allowedLateness: Lateness): Long
    requires cleanupTime != LONG_MAX
  {
    Add(Sub(cleanupTime, allowedLateness), 1)
  }

  /**
   * Decodes a cleanup timer back to its window's state key, CORRECTED: when
   * `t - allowedLateness` is below `Long.MIN_VALUE` no window has cleanup time `t`, so there is no key.
   */
  function CleanupStateKey(cleanupTime: Long, allowedLateness: Lateness): (r: Option<Long>)
    requires cleanupTime != LONG_MAX
    ensures r.Some? ==> r.value > LONG_MIN && r.value == CleanupTimeToStateKey(cleanupTime, allowedLateness)
  {
    if cleanupTime - allowedLateness < LONG_MIN then None else Some(cleanupTime - allowedLateness + 1)
  }

  /** A regular timer decodes to the state key of the window that registered it. */
  lemma RegularTimerRoundTrip(w: Window)
    ensures RegularEndTimeToStateKey(MaxTimestamp(w)) == WindowToStateKey(w)
  {
  }

  /** A cleanup timer that is not saturated decodes, both as written and corrected, to its window's state key. */
  lemma CleanupTimerRoundTrip(w: Window, allowedLateness: Lateness)
    requires CleanupTime(w, allowedLateness) != LONG_MAX
    ensures CleanupTimeToStateKey(CleanupTime(w, allowedLateness), allowedLateness) == WindowToStateKey(w)
    ensures CleanupStateKey(CleanupTime(w, allowedLateness), allowedLateness) == Some(WindowToStateKey(w))
  {
  }

  /**
   * The corrected decoding names exactly the windows whose cleanup time is `t`: key `w.end` is
   * decoded from `t` if and only if `w` has cleanup time `t` (and `end - 1` does not wrap).
   */
  lemma CleanupStateKeyDecodes(t: Long, allowedLateness: Lateness, w: Window)
    requires t != LONG_MAX
    ensures CleanupStateKey(t, allowedLateness) == Some(w.end)
        <==> w.end > LONG_MIN && CleanupTime(w, allowedLateness) == t
  {
  }

  /** A window's regular and cleanup timers fall on the same timestamp exactly when there is no lateness. */
  lemma TimerKindsCoincide(w: Window, allowedLateness: Lateness)
    requires w.end > LONG_MIN
    ensures CleanupTime(w, allowedLateness) == MaxTimestamp(w) <==> allowedLateness == 0
  {
  }

  /**
   * A window that is accepted (not late) but already due can only occur with a positive lateness,
   * and then its cleanup time lies strictly after its max timestamp.
   */
  lemma ImmediateFireNeedsLateness(w: Window, allowedLateness: Lateness, currentWatermark: Long)
    requires !IsWindowLate(w, allowedLateness, currentWatermark)
    requires MaxTimestamp(w) <= currentWatermark
    ensures allowedLateness > 0
    ensures MaxTimestamp(w) < CleanupTime(w, allowedLateness)
  {
  }

  /**
   * The as-written cleanup decoding wraps around: with lateness 100, the regular timer at
   * `Long.MIN_VALUE + 5` of window [MIN, MIN + 6) decodes as a cleanup timer to key `Long.MAX_VALUE - 93`,
   * the state key of window [MAX - 99, MAX - 93), whose cleanup time is `Long.MAX_VALUE`, not the timer.
   * The corrected decoding yields no key.
   */
  lemma CleanupKeyUnderflow()
    ensures MaxTimestamp(Window(LONG_MIN, LONG_MIN + 6)) == LONG_MIN + 5
    ensures CleanupTimeToStateKey(LONG_MIN + 5, 100) == LONG_MAX - 93
    ensures WindowToStateKey(Window(LONG_MAX - 99, LONG_MAX - 93)) == LONG_MAX - 93
    ensures CleanupTime(Window(LONG_MAX - 99, LONG_MAX - 93), 100) == LONG_MAX != LONG_MIN + 5
    ensures CleanupStateKey(LONG_MIN + 5, 100) == None
  {
  }
}
