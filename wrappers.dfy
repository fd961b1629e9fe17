/** Optional values: a JavaScript value that may be `undefined`, a number
    field that may not parse, an element lookup that may find nothing. */
module Wrappers {

  datatype Option<+T> = None | Some(value: T) {

    /** The value, or `default` when there is none: JavaScript's `x || default`
        for a field that is either absent or holds a non-falsy value. */
    function GetOr(default: T): T {
      match this
      case Some(v) => v
      case None => default
    }
  }
}
