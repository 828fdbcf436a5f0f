/** Small failure-carrying datatypes shared by the whole model, and the
    error conditions the service surfaces to its callers. */
module Wrappers {

  /** A Java reference that may be null. */
  datatype Option<+T> = None | Some(value: T) {
    function GetOr(default: T): T {
      match this
      case Some(v) => v
      case None => default
    }
  }

  /** The value an operation returns, or the exception it throws. */
  datatype Result<+T, +E> = Success(value: T) | Failure(error: E)

  /** An operation that returns nothing, or throws. */
  datatype Outcome<+E> = Pass | Fail(error: E)

  /** The exceptions that leave the services towards the HTTP layer. */
  datatype ApiError =
    | RateLimitExceeded(message: string)     // RateLimitExceededException
    | SessionNotFound(message: string)       // SessionNotFoundException
    | ValidationFailed(message: string)      // bean validation of a request body
    | InvalidPageRequest(message: string)    // IllegalArgumentException from PageRequest.of
}
