/** Optional values: the result of a parse that may fail, or of a search that may find nothing. */
module Wrappers {

  datatype Option<+T> = None | Some(value: T)
}
