/** Error values and failure-carrying results shared by the manager and its collaborators. */
module Wrappers {

  /** A Go `error`: only its message is observable to the manager's callers. */
  datatype Error = Error(message: string)

  /** A Go `(T, error)` return: either a value or the error that stopped the call. */
  datatype Result<+T> = Success(value: T) | Failure(error: Error)

  /** A Go function that returns only an `error` (nil is `Pass`). */
  datatype Outcome = Pass | Fail(error: Error)
}
