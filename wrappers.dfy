/** Optional values: a descriptor field that may be missing, a selection that may not exist. */
module Wrappers {

  datatype Option<+T> = None | Some(value: T)
}
