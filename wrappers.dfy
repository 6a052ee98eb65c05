/** The optional value used wherever a frame field or a parameter may be absent. */
module Wrappers {
  datatype Option<T> = None | Some(value: T)
}
