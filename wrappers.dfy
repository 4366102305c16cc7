/** The optional-value datatype shared by the other modules: Python's `None`
    next to a present value, and the result of a lookup that can fail. */
module Wrappers {

  datatype Option<+T> = None | Some(value: T)
}
