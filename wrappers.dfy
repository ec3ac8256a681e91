/** Optional values, standing for the host compiler's `Optional<T>` results and for a
    reference that may be null. */
module Wrappers {

  datatype Option<+T> = None | Some(value: T)
}
