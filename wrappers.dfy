/** Values that may be absent: a JavaScript `null`/`undefined`, or a string the
    source treats as falsy. */
module Wrappers {
  datatype Option<+T> = None | Some(value: T) {
    function GetOr(default: T): T {
      match this
      case Some(v) => v
      case None => default
    }
  }
}
