/** Failure-carrying values shared by the modules of the model. */
module Wrappers {

  datatype Option<+T> = None | Some(value: T)

  /** The exceptions the core can raise: a failed Python `assert` (with its
      message, empty when the assert has none) and the `ZeroDivisionError`
      of a `timedelta` modulo by a zero-length delta. */
  datatype Error = AssertionFailed(message: string) | ZeroDivision

  datatype Result<+T> = Ok(value: T) | Err(error: Error)
}
