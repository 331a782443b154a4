/** The one helper datatype shared by the model: a value that may be absent
    (JavaScript's `undefined`/`null` for a field or an option). */
module Wrappers {

  datatype Option<+T> = None | Some(value: T)
}
