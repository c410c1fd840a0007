/** An optional value, shared by the modules that look something up. */
module Wrappers {
  datatype Option<T> = Nothing | Some(value: T)
}
