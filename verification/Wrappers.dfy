/** Optional values, used for nullable columns and for results that may be an error. */
module Wrappers {
  datatype Option<+T> = None | Some(value: T)
}
