/** Small failure-carrying datatypes shared by the signup modules. */
module Wrappers {

  /** A value that may be absent (JavaScript's `x | null` / `undefined`). */
  datatype Option<+T> = None | Some(value: T)

  /** The result of a check that either passes or fails with an error. */
  datatype Outcome<+E> = Pass | Fail(error: E)
}
