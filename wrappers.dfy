/** The optional value shared by the widgets: a JavaScript value that may be
    `null` or `undefined`. */
module Wrappers {
  datatype Option<T> = None | Some(value: T)
}
