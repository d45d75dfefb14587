/** Optional values, standing in for the component's nullable pointers. */
module Wrappers {

  datatype Option<+T> = None | Some(value: T)
}
