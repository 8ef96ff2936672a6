/** Optional values: the model's stand-in for JavaScript's NaN / undefined results. */
module Wrappers {
  datatype Option<+T> = None | Some(value: T)
}
