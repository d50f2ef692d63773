/** Optional values, used for absent relation fields, absent stored state and failure indices. */
module Wrappers {

  datatype Option<+T> = None | Some(value: T)
}
