/** Option and Result: Python's `None` and the job's error returns, as values. */
module Wrappers {

  /** A value that may be absent (`None` in the job). */
  datatype Option<+T> = None | Some(value: T)

  /** Either a value or an error that ends the run. */
  datatype Result<+R, +E> = Success(value: R) | Failure(error: E)
}
