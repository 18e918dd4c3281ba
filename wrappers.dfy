/** The optional value Go expresses with a nil pointer, a nil interface or a nil error. */
module Wrappers {

  datatype Option<+T> = None | Some(value: T)
}
