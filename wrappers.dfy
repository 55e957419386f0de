/** Failure-carrying result types shared by the floor model. */
module Wrappers {

  datatype Option<+T> = None | Some(value: T)

  /** Errors that the Python code raises as exceptions. */
  datatype Error =
    /** `ZeroDivisionError`: a float division by zero. */
    | ZeroDivision

  datatype Result<+T> = Ok(value: T) | Err(error: Error)
}
