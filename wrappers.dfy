/** Optional values, standing for Go's nil pointers and missing map entries. */
module Wrappers {
  datatype Option<T> = None | Some(value: T)
  {
    predicate IsSome() { Some? }
  }
}
