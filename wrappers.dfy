/** Optional values, used where the application looks something up that may be absent. */
module Wrappers {

  datatype Option<+T> = None | Some(value: T)
}
