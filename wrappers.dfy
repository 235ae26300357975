/** Optional values: `None` stands for JavaScript's `null` (a missing header, a missing
    key-value entry, a missing query parameter) and for a failed parse. */
module Wrappers {

  datatype Option<+T> = None | Some(value: T) {

    /** The value, or `default` when there is none. */
    function GetOr(default: T): T {
      match this
      case Some(v) => v
      case None => default
    }
  }
}
