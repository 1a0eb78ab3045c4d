/** Failure-compatible result types shared by the other modules. */
module Wrappers {

  /** A value that may be absent; stands for a Go pointer that may be nil. */
  datatype Option<+T> = None | Some(value: T)

  /** Success, or a failure carrying an error value; stands for a Go `error` return. */
  datatype Outcome<+E> = Pass | Fail(error: E)
}
