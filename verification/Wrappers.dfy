/** The one wrapper type every module of the model shares. */
module Wrappers {
  datatype Option<+T> = None | Some(value: T)
}
