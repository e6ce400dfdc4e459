/** Optional values and pass/fail outcomes shared by the other modules. */
module Wrappers {

  /** A value that may be absent: JavaScript's `null` or `undefined`. */
  datatype Option<+T> = None | Some(value: T)

  /** The outcome of a guard that either returns normally or throws `error`. */
  datatype Outcome<+E> = Pass | Fail(error: E)
}
