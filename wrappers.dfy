/** The nullable-value wrapper shared by the other modules. */
module Wrappers {

  /** A value that may be absent: a C# `null` reference or an omitted JSON property. */
  datatype Option<+T> = None | Some(value: T)
}
