/** Values shared by the models: an optional value, used for nil pointers and absent map entries. */
module Wrappers {
  datatype Option<+T> = None | Some(value: T)
}
