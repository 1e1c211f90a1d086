/** Optional values, for lookups and steps that can fail. */
module Wrappers {

  datatype Option<T> = None | Some(value: T)
}
