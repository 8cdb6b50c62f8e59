/** The conventional optional value, used wherever the source has a value
    that may be absent (a missing docstring annotation, a JSON payload that
    fails to parse, a `None` message content). */
module Wrappers {

  datatype Option<+T> = None | Some(value: T)
}
