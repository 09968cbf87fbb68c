/** The optional value used wherever the program has "a value or None" (or "a value or
    an exception that the caller turns into a plain failure"). */
module Wrappers {

  datatype Option<+T> = None | Some(value: T)

}
