/** The Some/None datatype used where the source uses Python's None. */
module Optional {

  datatype Option<+T> = None | Some(value: T)
}
