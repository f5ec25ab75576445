/** A nullable value: the model of a Python `None` or an SQL NULL. */
module Wrappers {

  datatype Option<+T> = None | Some(value: T)
}
