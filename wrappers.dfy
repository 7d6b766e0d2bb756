/** Optional values, used wherever the client's library calls may fail. */
module Wrappers {

  datatype Option<+T> = None | Some(value: T)
}
