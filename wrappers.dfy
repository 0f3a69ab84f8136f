/** Optional values: SQL NULL, a JavaScript `undefined` field, a pandas NaN cell. */
module Wrappers {

  datatype Option<+T> = None | Some(value: T) {

    /** The value, or `default` when absent: the `COALESCE(x, d)` / `x ?? d` idiom. */
    function GetOr(default: T): T {
      match this
      case Some(v) => v
      case None => default
    }
  }

  /** `COALESCE(a, b)`: the first of two optional values that is present. */
  function Coalesce<T>(a: Option<T>, b: Option<T>): (r: Option<T>)
    ensures r.Some? <==> a.Some? || b.Some?
    ensures a.Some? ==> r == a
  {
    if a.Some? then a else b
  }
}
