/** Optional values, used for the slot override and the video source. */
module Wrappers {
  datatype Option<+T> = None | Some(value: T)
}
