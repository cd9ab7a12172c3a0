/** Optional values, used where the source works with `None`. */
module Wrappers {

  datatype Option<+T> = None | Some(value: T)
}
