/** The optional value used by the model's searches. */
module Wrappers {
  datatype Option<T> = None | Some(value: T)
}
