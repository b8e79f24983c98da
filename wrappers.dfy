/** Optional values: Python's `None` versus a present value. */
module Wrappers {

  datatype Option<+T> = None | Some(value: T) {

    /** The value if present, else `default`: the shape of `dict.get(key, default)`. */
    function GetOr(default: T): T {
      if Some? then value else default
    }
  }
}
