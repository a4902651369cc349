/** The optional value used for JavaScript's `null`/`undefined` results. */
module Wrappers {
  datatype Option<T> = None | Some(value: T) {
    /** `x || fallback` for a value that is falsy only when absent. */
    function GetOr(fallback: T): T {
      match this
      case Some(v) => v
      case None => fallback
    }
  }
}
