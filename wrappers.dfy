/** The optional value used for sanitizer results and for the optional
    fields of a validation result. */
module Wrappers {

  datatype Option<+T> = None | Some(value: T)
}
