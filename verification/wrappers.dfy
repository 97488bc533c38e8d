/** Optional values, used where the source keeps `null` in place of a handle. */
module Wrappers {
  datatype Option<+T> = None | Some(value: T)
}
