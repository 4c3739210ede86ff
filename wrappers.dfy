/** Option and Result values, and the Python exception kinds the model distinguishes. */
module Wrappers {

  datatype Option<+T> = None | Some(value: T) {
    function GetOr(default: T): T {
      match this
      case Some(v) => v
      case None => default
    }
  }

  /** The Python exceptions that can escape a modelled operation. */
  datatype PyError = TypeError | ValueError | KeyError | ZeroDivisionError | AttributeError

  /** The outcome of an operation that returns normally or raises. */
  datatype Result<+T> = Ok(value: T) | Raise(error: PyError)
}
