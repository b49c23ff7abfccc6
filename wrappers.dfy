/** The optional value used wherever the editor's JavaScript has `undefined` or `null`. */
module Wrappers {

  datatype Option<+T> = None | Some(value: T) {

    /** Returns the value in Some, or the default when None (JavaScript's `x || default`). */
    function GetOr(default: T): T {
      match this
      case Some(v) => v
      case None => default
    }
  }
}
