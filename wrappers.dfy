/** Outcomes of calls that can fail, shaped like the server's error objects. */
module Wrappers {

  /** The kinds a server error object can carry. */
  datatype ErrorCode = Unknown | Internal | NotFound | InvalidArg | Unavailable | Unsupported | AlreadyExists

  /** A server error object: its kind and a human-readable message. */
  datatype Error = Error(code: ErrorCode, message: string)

  datatype Option<+T> = None | Some(value: T)

  /** The outcome of a call: a value, or the error the call raised. */
  datatype Result<+T> = Ok(value: T) | Err(error: Error) {

    predicate IsFailure() {
      Err?
    }

    function PropagateFailure<U>(): Result<U>
      requires Err?
    {
      Err(error)
    }

    function Extract(): T
      requires Ok?
    {
      value
    }
  }
}
