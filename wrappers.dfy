/** Absent values, results and pass/fail outcomes, used where the JavaScript code
    returns `undefined` or throws. */
module Wrappers {

  /** `None` plays the role of JavaScript's `undefined` result. */
  datatype Option<+T> = None | Some(value: T)

  /** The value of an operation that may throw. */
  datatype Result<+T, +E> = Ok(value: T) | Err(error: E)

  /** The outcome of an operation that returns nothing but may throw. */
  datatype Outcome<+E> = Pass | Fail(error: E)
}
