/** Optional values: Go nil values, absent files and "not found" results. */
module Wrappers {

  datatype Option<+T> = None | Some(value: T)
}
