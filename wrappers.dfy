/** The optional value shared by the palette lookup and the HTTP model. */
module Wrappers {
  datatype Option<+T> = None | Some(value: T)
}
