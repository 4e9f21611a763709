/** Option, Result and Outcome values for partial parsing and for the errors a cleaning step raises. */
module Wrappers {

  /** A value that may be missing (pandas' NaN / NaT / None). */
  datatype Option<+T> = None | Some(value: T)

  /** The result of a step that either produces a value or raises an error. */
  datatype Result<+T, +E> = Success(value: T) | Failure(error: E)

  /** The result of a step that changes state in place and may raise an error. */
  datatype Outcome<+E> = Pass | Fail(error: E)
}
