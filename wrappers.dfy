/** Optional values: a nullable reference, a lookup that may miss, a conversion that may throw. */
module Wrappers {

  datatype Option<+T> = None | Some(value: T)
}
