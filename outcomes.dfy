/** Failure-carrying wrappers shared by the model's modules. */
module Outcomes {

  /** A value that may be missing (list.remove finds no such card). */
  datatype Option<+T> = None | Some(value: T)

  /** A value, or the error the Python code would raise instead of producing it. */
  datatype Result<+T, +E> = Success(value: T) | Failure(error: E)
}
