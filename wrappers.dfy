/** An optional value: a form field or JSON key that was missing or could not be parsed. */
module Wrappers {

  datatype Option<+T> = None | Some(value: T)
}
