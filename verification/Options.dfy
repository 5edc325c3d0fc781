/** The optional value used throughout: an absent iterator, an empty pointer, a missing result. */
module Options {
  datatype Option<+T> = None | Some(value: T)
}
