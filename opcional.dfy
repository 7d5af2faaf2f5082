/** The usual optional value, used where the source answers `None`. */
module Opcional {
  datatype Option<T> = None | Some(value: T)
}
