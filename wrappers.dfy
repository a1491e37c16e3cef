/** The optional value the stores use where JavaScript has `undefined` or `null`. */
module Wrappers {

  datatype Option<+T> = None | Some(value: T)
}
