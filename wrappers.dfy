/** An optional value, for the source's `null`/`undefined` results. */
module Wrappers {
  datatype Option<T> = None | Some(value: T)
}
