/** The optional-value datatype used throughout the model: a Python value that
    may be `None` (a missing dictionary key, a `None` returned by a library). */
module Wrappers {

  datatype Option<+T> = None | Some(value: T) {

    /** The wrapped value, or `default` when there is none. */
    function GetOr(default: T): T {
      match this
      case Some(v) => v
      case None => default
    }
  }
}
