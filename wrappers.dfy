/** Optional values, used for Python's None and for missing dictionary keys. */
module Wrappers {

  datatype Option<+T> = None | Some(value: T)
}
