/** Shared datatypes. */
module Prelude {

  datatype Option<+T> = None | Some(value: T)

}
