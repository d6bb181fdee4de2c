/** The optional value shared by the handlers and the render loop. */
module Wrappers {
  datatype Option<+T> = None | Some(value: T)
}
