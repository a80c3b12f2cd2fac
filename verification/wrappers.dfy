/** The optional value used wherever the game can fail to produce one:
    a Python `ValueError` from `int()`, a rejected True/False answer, or an
    arithmetic expression Python could not evaluate. */
module Wrappers {

  datatype Option<+T> = None | Some(value: T)
}
