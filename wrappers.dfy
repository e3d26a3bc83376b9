/** Optional values, used wherever the source tests a pointer or a `Find` result for null. */
module Wrappers {
  datatype Option<T> = None | Some(value: T)
  {
    /** The contained value, or `default` when there is none. */
    function GetOr(default: T): T
    {
      if Some? then value else default
    }
  }
}
