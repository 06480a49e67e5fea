/** The optional-value type used for empty grid slots and for decode outcomes. */
module Wrappers {
  datatype Option<+T> = None | Some(value: T)
}
