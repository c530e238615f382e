/** Optional values, standing for Go's nil-able values (an `error` that may be nil). */
module Wrappers {
  datatype Option<+T> = None | Some(value: T)
}
