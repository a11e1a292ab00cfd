/** Small failure-compatible datatypes shared by the modules of the model. */
module Wrappers {

  /** A value that may be absent (JavaScript `null` / `undefined`). */
  datatype Option<+T> = None | Some(value: T)

  /** The outcome of a handler that either returns normally or throws `error`. */
  datatype Outcome<+E> = Pass | Fail(error: E)
}
