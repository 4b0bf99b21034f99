/** Optional values: the model's stand-in for a nullable C pointer. */
module Wrappers {
  datatype Option<+T> = None | Some(value: T)
}
