/** The optional-value datatype used for the source's nullable fields
    (`User | null`, `string | undefined`). */
module Wrappers {

  datatype Option<+T> = None | Some(value: T)
}
