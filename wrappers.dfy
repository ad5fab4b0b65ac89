/** Optional values: a document that may not exist, a field that may be absent. */
module Wrappers {

  datatype Option<+T> = None | Some(value: T)
}
