/** Optional values, for parse results and transport errors that may be absent. */
module Wrappers {
  datatype Option<+T> = None | Some(value: T)
}
