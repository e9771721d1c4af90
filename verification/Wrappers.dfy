/** The optional value the C++ code writes as `std::optional` and Python as `None`. */
module Wrappers {
  datatype Option<+T> = None | Some(value: T)
}
