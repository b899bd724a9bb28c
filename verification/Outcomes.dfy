/** How a call of the C++ program ends, and the usual optional value. */
module Outcomes {

  datatype Option<+T> = None | Some(value: T)

  /**
   `Ok` is a normal return, `Throws` a `std::runtime_error` that leaves the call, and `Undefined`
   marks inputs on which the C++ text has no defined behaviour (an iterator that no longer points
   into its container, a reversed range, a read past the end of a vector).
   */
  datatype Outcome<+T> = Ok(value: T) | Throws | Undefined
}
