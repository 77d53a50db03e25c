/** Optional values, used for nullable columns and missing keys. */
module Wrappers {
  datatype Option<+T> = None | Some(value: T)
}
