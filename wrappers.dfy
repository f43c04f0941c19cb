/** The optional value that JavaScript expresses with `undefined` or `null`. */
module Wrappers {

  datatype Option<+T> = None | Some(value: T)
}
