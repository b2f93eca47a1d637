// An optional value, standing for the pointers the simulation leaves null.
module Optional {
  datatype Option<T> = None | Some(value: T)
}
