/** Optional values, standing for the source's nullable fields and optional properties. */
module Wrappers {

  datatype Option<+T> = None | Some(value: T)
}
