/** Optional values: Objective-C's `nil` versus a present object. */
module Wrappers {

  datatype Option<+T> = None | Some(value: T)
}
