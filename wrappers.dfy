/** Option and Result values, and the Python exceptions the modelled code raises. */
module Wrappers {

  datatype Option<+T> = None | Some(value: T) {
    function GetOr(default: T): T {
      match this
      case Some(v) => v
      case None => default
    }
  }

  /** The exception classes the modelled code raises, with the message or key they carry. */
  datatype Error =
    | ValueError(message: string)
    | KeyError(key: string)
    | AttributeError(message: string)

  /** A computation that either returns a value or raises an exception. */
  datatype Result<+T> = Ok(value: T) | Err(error: Error)
}
