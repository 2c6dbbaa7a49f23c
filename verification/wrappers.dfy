/** Optional values, as `std::optional` is used throughout the terminal code. */
module Wrappers {
  datatype Option<+T> = None | Some(value: T)
  {
    /** The held value, or `default` when there is none (`value_or`). */
    function GetOr(default: T): T
    {
      match this
      case Some(v) => v
      case None => default
    }
  }
}
