/** Optional values, used for lookups that may find nothing and for the prompt a command may write. */
module Wrappers {

  datatype Option<+T> = None | Some(value: T)
}
