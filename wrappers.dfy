/** The nil-or-value wrapper used for Go interface values that may be nil. */
module Wrappers {

  datatype Option<+T> = None | Some(value: T)
}
