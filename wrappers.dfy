/** Option and Result values for the lookups and errors of the backend. */
module Wrappers {

  /** A value that may be absent, as a missing key of a JSON payload. */
  datatype Option<+T> = None | Some(value: T) {
    /** The carried value, or `default` when there is none (`dict.get(key, default)`). */
    function GetOr(default: T): (r: T)
      ensures Some? ==> r == value
      ensures None? ==> r == default
    {
      match this
      case Some(v) => v
      case None => default
    }
  }

  /** Either a computed value or the error that the computation raises. */
  datatype Result<+T, +E> = Success(value: T) | Failure(error: E)
}
