/** The optional value the editor's Rust code gets back from fallible
    constructors and dialogs (`Option<T>`). */
module Wrappers {
  datatype Option<+T> = None | Some(value: T)
}
