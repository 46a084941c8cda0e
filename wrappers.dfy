/** Optional values, used wherever the source works with `None`. */
module Wrappers {
  datatype Option<+T> = None | Some(value: T)
}
