/** The error taxonomy of the client library and the result type every
    operation of the model returns instead of throwing. */
module Outcomes {

  /** One constructor per kind of exception the library lets escape. */
  datatype Error =
    | NotLoggedIn                     // InvalidOperationException("Not logged in")
    | AlreadyLoggedIn                 // InvalidOperationException("Already logged in!")
    | ArgumentNull(param: string)     // ArgumentNullException(param)
    | ArgumentInvalid(param: string)  // ArgumentException(param)
    | Unauthorized                    // UnauthorizedAccessException
    | OperationFailed(message: string) // Exception(message) raised on a failure envelope
    | TransportFailed                 // HttpRequestException from the transport
    | MalformedResponse               // null dereference or a JSON value of the wrong kind

  datatype Option<+T> = None | Some(value: T)

  datatype Result<+T> = Success(value: T) | Failure(error: Error) {
    predicate IsFailure() { Failure? }

    function PropagateFailure<U>(): Result<U>
      requires Failure?
    {
      Failure(error)
    }

    function Extract(): T
      requires Success?
    {
      value
    }
  }
}
