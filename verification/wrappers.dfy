/** A conventional optional value, standing for a C# reference that may be null
    or a dictionary lookup that may miss. */
module Wrappers {
  datatype Option<+T> = None | Some(value: T)
}
