/**
  Failure-carrying return types used in place of the Python exceptions and
  `None` results of the modelled code.
 */
module Results {

  /** A value that may be absent (Python's `None` for a missing lookup). */
  datatype Option<+T> = None | Some(value: T) {

    /** The contained value, or `default` when absent. */
    function GetOr(default: T): T {
      match this
      case Some(v) => v
      case None => default
    }
  }

  /** Either a computed value or the error the Python code would raise. */
  datatype Result<+T, +E> = Ok(value: T) | Err(error: E)
}
