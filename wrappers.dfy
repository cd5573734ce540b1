/** Optional values: a field error message that may be absent, or an
    authentication failure that may be absent. */
module Wrappers {

  datatype Option<+T> = None | Some(value: T)
}
