/** The optional value used for absent files and missing configuration keys. */
module Wrappers {
  datatype Option<T> = None | Some(value: T) {
    /** The value, or `default` when there is none (Python's `dict.get(key, default)`). */
    function GetOr(default: T): T {
      match this
      case Some(v) => v
      case None => default
    }
  }
}
