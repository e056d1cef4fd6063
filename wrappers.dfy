/** Result types used by the rest of the model, standing
    for Python's `None` defaults and for the exceptions the pipeline raises. */
module Wrappers {

  datatype Option<+T> = None | Some(value: T)

  datatype Result<+R, +E> = Success(value: R) | Failure(error: E)

  /** An operation that either completes or fails with an error and returns
      no value (a Python function returning `None` or `True`, or raising). */
  datatype Outcome<+E> = Pass | Fail(error: E)
}
