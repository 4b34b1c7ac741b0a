/** The optional-value datatype used throughout the model: a Python attribute or
    reference that may be `None`. */
module Wrappers {

  datatype Option<+T> = None | Some(value: T)
}
