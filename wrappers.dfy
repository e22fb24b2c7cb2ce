/** Optional values, shared by the pattern modules. */
module Wrappers {
  datatype Option<T> = None | Some(value: T)
}
