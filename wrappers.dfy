/** Optional values, for the optional fields of the build manifest. */
module Wrappers {

  datatype Option<+T> = None | Some(value: T)
}
