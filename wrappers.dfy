/** Optional values, used for the C code's "no handler" slots and for
  * results that only exist on some paths. */
module Wrappers {
  datatype Option<+T> = None | Some(value: T)
}
