/** The optional value used wherever the C# code has a nullable reference
    or a lookup that may find nothing. */
module Wrappers {

  datatype Option<+T> = None | Some(value: T)
}
