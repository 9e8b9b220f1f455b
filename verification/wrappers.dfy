/** Optional values, used where PHP returns `null` or `false` for "nothing there". */
module Wrappers {

  datatype Option<+T> = None | Some(value: T)
}
