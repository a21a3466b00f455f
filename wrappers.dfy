/** Option, Result and Outcome: how the model spells a value that may be absent,
    a lookup that may throw, and an async call that may reject. */
module Wrappers {

  datatype Option<+T> = None | Some(value: T)

  datatype Result<+R, +E> = Success(value: R) | Failure(error: E)

  /** Pass is a promise that resolved, Fail(e) one that rejected with e. */
  datatype Outcome<+E> = Pass | Fail(error: E)
}
