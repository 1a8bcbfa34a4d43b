/** Option type shared by the calculator and the component state. */
module Wrappers {

  /** `None` stands for an input field whose text is empty, or a state value not yet set. */
  datatype Option<+T> = None | Some(value: T)
}
