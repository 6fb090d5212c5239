/** Optional values: the model's stand-in for TypeScript's `T | null` and
    for the optional fields of a `Partial<T>` update. */
module Wrappers {

  datatype Option<+T> = None | Some(value: T) {

    /** The wrapped value, or `default` when absent. */
    function GetOr(default: T): T {
      match this
      case Some(v) => v
      case None => default
    }
  }
}
