/** The usual optional value: `None` stands for Python's `None`, or for a
    foreign call that raised instead of producing a value. */
module Wrappers {

  datatype Option<+T> = None | Some(value: T)
}
