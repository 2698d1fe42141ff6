/** Optional values and the outcome of a call that may throw. */
module Outcomes {

  /** A value that may be missing (JavaScript's `undefined`/`null`). */
  datatype Option<+T> = None | Some(value: T)

  /** What an awaited call produced: a value, or an exception carrying its message. */
  datatype Try<+T> = Done(value: T) | Threw(error: string)
}
