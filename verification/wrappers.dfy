/** A minimal optional-value datatype. In this model `None` plays the part of
    Go's `nil` error and `Some(e)` a non-nil error value. */
module Wrappers {

  datatype Option<+T> = None | Some(value: T)
}
