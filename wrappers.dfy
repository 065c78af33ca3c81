/** The optional-value datatype used for every configuration key the assembler
    tests with `defined?`. */
module Wrappers {

  datatype Option<+T> = None | Some(value: T)
}
