/** Small failure-carrying datatypes shared by the other modules. */
module Wrappers {

  datatype Option<+T> = None | Some(value: T) {
    function GetOr(default: T): T {
      match this
      case Some(v) => v
      case None => default
    }
  }

  datatype Result<+R, +E> = Success(value: R) | Failure(error: E)

  /** The Python exceptions the request handler can raise on a malformed
      submission: a missing key in the JSON body (KeyError) and a claim
      value that `int` cannot parse (ValueError). */
  datatype Fault = KeyError(key: string) | ValueError(text: string)
}
