/** Failure-carrying result types shared by every module of the model.
    A thrown JavaScript error becomes a `Failure` or `Fail` value. */
module Wrappers {

  /** A value that may be absent. */
  datatype Option<+T> = None | Some(value: T)

  /** Either a constructed value or the error that stopped its construction. */
  datatype Result<+R, +E> = Success(value: R) | Failure(error: E)

  /** Completion without a value (a resolved `Promise<void>`), or the error it was rejected with. */
  datatype Outcome<+E> = Pass | Fail(error: E)
}
