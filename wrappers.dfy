/** The optional value used throughout the model: `None` stands for a Python
    exception (IndexError, KeyError, ValueError, RuntimeError) or for a
    JavaScript `undefined`, as each member's documentation says. */
module Wrappers {

  datatype Option<+T> = None | Some(value: T)

}
