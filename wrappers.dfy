/** The optional value the resolver dispatches on (Rust's `Option<String>`). */
module Wrappers {

  datatype Option<+T> = None | Some(value: T)

}
