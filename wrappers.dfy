/** The optional-value type used for the source's nullable handles and values. */
module Wrappers {

  datatype Option<+T> = None | Some(value: T)
}
