/** Optional values: a query parameter that may be absent, a response field that may be missing. */
module Wrappers {
  datatype Option<+T> = None | Some(value: T)
}
