/** The optional value used wherever the compiled engine encodes "absent" as a
    zero offset or an infinite bound. */
module Wrappers {

  datatype Option<+T> = None | Some(value: T)
}
