/** Optional values, results and the exceptions the library throws. */
module Wrappers {

  /** std::optional: a value or nothing. */
  datatype Option<+T> = None | Some(value: T)

  /** The standard exception classes the views and adaptors throw, with their message. */
  datatype Exception =
    | OutOfRange(what: string)       // std::out_of_range
    | InvalidArgument(what: string)  // std::invalid_argument
    | RuntimeError(what: string)     // std::runtime_error

  /** A value, or the exception thrown instead of returning it. */
  datatype Result<+T> = Ok(value: T) | Err(error: Exception) {

    /** The value as an optional, dropping the exception. */
    function ToOption(): Option<T> {
      match this
      case Ok(v) => Some(v)
      case Err(_) => None
    }
  }

  /** The outcome of an operation that returns nothing but may throw. */
  datatype Outcome = Pass | Fail(error: Exception)
}
