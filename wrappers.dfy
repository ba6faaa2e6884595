/** Optional values: `None` stands for "absent" or, for a computation, "the source would throw here". */
module Wrappers {
  datatype Option<+T> = None | Some(value: T)
}
