/** Failure-carrying values shared by every module: an optional value (Python's
    `None` or a value) and the outcome of a Python call that may raise. */
module Wrappers {

  datatype Option<+T> = None | Some(value: T)

  /** The Python exceptions the modelled code can raise without catching them. */
  datatype PyError = ValueError | TypeError | KeyError

  /** The value a Python call returns, or the exception it raises. */
  datatype Outcome<+T> = Returned(value: T) | Raised(error: PyError)
}
