/** Failure-carrying datatypes shared by the model: a Python value that may be
    absent, a call that returns a value or raises, and a call that only
    succeeds or raises. */
module Wrappers {

  datatype Option<+T> = None | Some(value: T)

  datatype Result<+T, +E> = Ok(value: T) | Err(error: E)

  datatype Outcome<+E> = Pass | Fail(error: E)
}
