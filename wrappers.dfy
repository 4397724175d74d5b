/** Optional values, results and the Python exceptions the modelled code raises or catches. */
module Wrappers {

  datatype Option<+T> = None | Some(value: T) {
    function GetOr(default: T): T {
      match this
      case Some(v) => v
      case None => default
    }
  }

  /** The exceptions that matter to the model. `Raised(m)` is `raise Exception(m)`. */
  datatype Error =
    | KeyError
    | TypeError
    | IndexError
    | ZeroDivisionError
    | ValueError
    | StopIteration
    | AttributeError
    | Raised(message: string)

  /** Either a value or the exception that escaped the call. */
  datatype Result<+T> = Ok(value: T) | Err(error: Error)

  /** A call that returns nothing useful: it either completes or raises. */
  datatype Outcome = Pass | Fail(error: Error)
}
