/** An optional value: `std::string::npos` for a search, "no vector" for
    the interrupt priority. */
module Wrappers {

  datatype Option<T> = None | Some(value: T)
}
