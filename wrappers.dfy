/** Optional values: a page count that is not yet known, a number that is NaN. */
module Wrappers {

  datatype Option<+T> = None | Some(value: T)
}
