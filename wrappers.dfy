/** Optional values, used for "is a listener currently open, and for which conversation". */
module Wrappers {
  datatype Option<+T> = None | Some(value: T)
}
