/** The optional value used for JavaScript's `null` and for the `""` placeholders. */
module Wrappers {
  datatype Option<+T> = None | Some(value: T)
}
