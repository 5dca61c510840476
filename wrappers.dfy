/** Optional values, standing for the Java references that the core compares with null. */
module Wrappers {

  datatype Option<+T> = None | Some(value: T)
}
