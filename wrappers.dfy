/** Optional values, for the places where the report code returns `undefined` or `null`. */
module Wrappers {
  datatype Option<T> = None | Some(value: T)
}
