/** The option type shared by every module: a nullable column, or a lookup that may miss. */
module Wrappers {
  datatype Option<+T> = None | Some(value: T)
}
