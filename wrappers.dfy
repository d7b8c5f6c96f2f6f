/** The optional value the model uses where JavaScript has `undefined` or `null`. */
module Wrappers {
  datatype Option<+T> = None | Some(value: T)
}
