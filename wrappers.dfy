/** Optional values: Python's `None` for a missing price, frame, signal or field. */
module Wrappers {

  datatype Option<+T> = None | Some(value: T)

}
