/** The optional values of the scorer's inputs and outputs: a TypeScript
    `boolean | undefined` or `Level | undefined` is an `Option`. */
module Wrappers {

  datatype Option<+T> = None | Some(value: T)
}
