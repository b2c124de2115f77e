/** Optional values: a threshold that may be absent, a domain segment that may be missing. */
module Wrappers {

  datatype Option<+T> = None | Some(value: T)
}
