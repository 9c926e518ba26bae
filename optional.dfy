/** An optional value: the model's stand-in for Swift's `Optional` (a node name that may be nil). */
module Optional {
  datatype Option<+T> = None | Some(value: T)
}
