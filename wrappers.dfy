/** The optional value used for every parse that the source lets fail
    (a `None` return, a caught `ValueError`, a skipped row). */
module Wrappers {
  datatype Option<+T> = None | Some(value: T)
}
