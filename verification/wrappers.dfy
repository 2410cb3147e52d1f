/** The optional-value type used by the partial inverses (parsing a console
    call back into a buffer entry). */
module Wrappers {

  datatype Option<+T> = None | Some(value: T)
}
