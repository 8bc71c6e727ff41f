/** Optional values and the Python exceptions the modelled code can raise. */
module Wrappers {

  /** A value that may be missing, as `dict.get` returns `None` for a missing key. */
  datatype Option<+T> = None | Some(value: T) {

    /** The value, or `default` when missing: `d.get(k, default)`. */
    function GetOr(default: T): T {
      match this
      case Some(v) => v
      case None => default
    }
  }

  /** The exceptions the modelled code raises on its error paths. */
  datatype PyError = TypeError | KeyError(key: string) | IndexError

  /** Either a result or the exception that the source raises instead. */
  datatype Result<+T> = Success(value: T) | Failure(error: PyError)
}
