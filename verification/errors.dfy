/** The exceptions the core raises, as one error datatype. */
module Errors {
  import opened Json

  datatype Error =
    /** `AuthorizationException`: status 401 or 403. */
    | Authorization
    /** `ResourceNotFoundException`: status 404. */
    | ResourceNotFound
    /** `ExecutionFailureException`: status 500, or an error envelope in the payload. */
    | ExecutionFailure
    /** `UnexpectedStatusCodeException`: any other status outside 200 and 400. */
    | UnexpectedStatusCode
    /** Python's `ValueError`, with its message. */
    | ValueError(message: string)
    /** Python's `KeyError`: a dictionary lookup of a missing key. */
    | KeyError(key: Value)
    /** Python's `TypeError`: an operator applied to a value of the wrong kind. */
    | TypeError
}
