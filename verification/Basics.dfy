/** Small definitions shared by the modules. */
module Basics {
  datatype Option<T> = None | Some(value: T)

  // A condition as a count.
  function One(b: bool): nat { if b then 1 else 0 }
}
