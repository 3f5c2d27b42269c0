/** Optional values, as Rust's `Option`, and the `last()` of a sequence. */
module Wrappers {

  datatype Option<+T> = None | Some(value: T) {

    /** Rust's `unwrap_or`. */
    function GetOr(default: T): T {
      match this
      case Some(v) => v
      case None => default
    }
  }

  /** The last element of a sequence, as `last()` on a Rust slice or iterator. */
  function Last<T>(s: seq<T>): Option<T> {
    if |s| == 0 then None else Some(s[|s| - 1])
  }
}
