/** Optional values and Python truthiness, shared by every platform module. */
module Wrappers {

  /** A value that may be absent (Python's `None`). */
  datatype Option<+T> = None | Some(value: T) {
    function GetOr(default: T): T {
      match this
      case Some(v) => v
      case None => default
    }
  }

  /** Python truthiness of an optional string: `None` and `""` are false. */
  predicate IsTruthy(s: Option<string>) {
    s.Some? && s.value != ""
  }

  /** Python truthiness of an optional list: `None` and `[]` are false. */
  predicate HasItems<T>(xs: Option<seq<T>>) {
    xs.Some? && xs.value != []
  }
}
