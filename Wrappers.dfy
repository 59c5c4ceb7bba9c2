/** A TypeScript value that may be `null` or `undefined`: both are `None`. */
module Wrappers {

  datatype Option<+T> = None | Some(value: T) {

    /** `v ?? fallback` */
    function GetOr(fallback: T): T {
      match this
      case Some(v) => v
      case None => fallback
    }
  }
}
