/** Optional values, for the places where the application either has a value
    or does not (the bundle directory, the cause of a failed launch). */
module Wrappers {

  datatype Option<+T> = None | Some(value: T)
}
