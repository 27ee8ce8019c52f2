/** Option, Result and Outcome values used for nullable columns, failing
    database statements and the results of network calls. */
module Wrappers {

  /** A JavaScript value that may be `null`/`undefined` (None) or present. */
  datatype Option<+T> = None | Some(value: T) {
    function GetOr(default: T): T {
      match this
      case Some(v) => v
      case None => default
    }
  }

  /** The outcome of a statement that may fail with an error of type E. */
  datatype Result<+T, +E> = Success(value: T) | Failure(error: E)

  /** The outcome of an awaited promise: it resolves with a value or rejects
      with an error whose message is given. */
  datatype Outcome<+T> = Ok(value: T) | Fail(message: string)
}
