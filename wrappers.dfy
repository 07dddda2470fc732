/** The optional values of the generator's inputs: a block, a range or a
    flag that the source leaves `undefined` or `null`. */
module Wrappers {

  datatype Option<+T> = None | Some(value: T)
}
