/** The optional value used wherever the C# code works with a reference that may be null. */
module Wrappers {

  datatype Option<+T> = None | Some(value: T)
}
