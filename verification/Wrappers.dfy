/** Optional values, as the Manager's Python code uses `None`. */
module Wrappers {

  datatype Option<+T> = None | Some(value: T)
}
