/** The optional value used wherever the Python code either produces a value
    or raises (a `ValueError` from `int()`, say). */
module Wrappers {

  datatype Option<+T> = None | Some(value: T)
}
