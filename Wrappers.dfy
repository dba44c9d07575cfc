/** Python's `None`-or-value results and JavaScript's `null`-or-value state. */
module Wrappers {

  datatype Option<+T> = None | Some(value: T)
}
