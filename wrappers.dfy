/** The optional value used wherever the plugin returns a nullable result. */
module Wrappers {
  datatype Option<+T> = None | Some(value: T)
}
