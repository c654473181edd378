/** java.util.Optional, as a value. */
module Wrappers {

  datatype Option<T> = None | Some(value: T)
}
