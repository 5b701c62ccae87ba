/** Failure-carrying values shared by every module of the model. */
module Wrappers {

  /** A value that may be absent (Python's `None`). */
  datatype Option<+T> = None | Some(value: T)

  /** The outcome of an operation that either succeeds or is rejected with a message
      (an HTTP error detail, or the text of a raised `ValueError`). */
  datatype Result<+T> = Ok(value: T) | Err(message: string)

  /** What a call into an external collaborator (venue, database) did: it returned a
      value, or it raised an exception that the caller has to handle. */
  datatype Outcome<+T> = Returned(value: T) | Raised
}
