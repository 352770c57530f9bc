/** An optional value: a DOM lookup that may find nothing, an attribute that may be absent. */
module Optional {
  datatype Option<+T> = None | Some(value: T)
}
