/** Optional values: Python's `None` versus a present value. */
module Wrappers {

  datatype Option<T> = None | Some(value: T) {
    /** `d.get(k, default)` for a key that may be absent. */
    function GetOr(default: T): T {
      if Some? then value else default
    }
  }
}
