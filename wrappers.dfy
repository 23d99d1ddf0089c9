/** The optional value used where the source has `undefined`, `null` or a
    missing object property. */
module Wrappers {

  datatype Option<+T> = None | Some(value: T)
}
