/** Optional values: the model's stand-in for null pointers and for "not set" outputs. */
module Wrappers {

  datatype Option<+T> = None | Some(value: T)
}
