/** Optional values: the model's stand-in for an absent object or an absent result. */
module Wrappers {
  datatype Option<+T> = None | Some(value: T)
}
