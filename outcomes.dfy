/** Optional values and the success/failure outcome of a remote call. */
module Outcomes {

  datatype Option<+T> = None | Some(value: T)

  /** Whatever the HTTP client threw: the model never looks inside it. */
  datatype Failure = Failure(detail: string)

  /** A remote call either resolves with a value or rejects with a failure. */
  datatype Result<+T> = Ok(value: T) | Err(error: Failure)
}
