/** Optional values, used for "no timer is pending" and "no toggle is forwarded". */
module Wrappers {

  datatype Option<+T> = None | Some(value: T)
}
