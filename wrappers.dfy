/** Option, the model's stand-in for a null reference or a query that can fail. */
module Wrappers {

  datatype Option<+T> = None | Some(value: T)
}
