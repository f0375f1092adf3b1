/** The shapes shared by the model: an optional value, and Go's `error` result. */
module Outcomes {

  /** A value that may be absent: a nil pointer field of a patch, or a missing store entry. */
  datatype Option<+T> = None | Some(value: T)
  {
    /** The value if present, otherwise `default`. */
    function GetOr(default: T): T
    {
      match this
      case Some(v) => v
      case None => default
    }
  }

  /** The result of a Go function returning only an `error`: nil (`Pass`) or an error. */
  datatype Outcome<+E> = Pass | Fail(error: E)
}
