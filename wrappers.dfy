/** Optional values and check outcomes used across the model. */
module Wrappers {

  /** A value that may be absent (Java's `null`). */
  datatype Option<+T> = None | Some(value: T)

  /** The outcome of a `checkArgument`-style precondition check: pass, or fail with a message. */
  datatype Outcome = Pass | Fail(message: string)
}
