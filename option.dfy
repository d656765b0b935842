/** The Option datatype used wherever the Java code returns or accepts null. */
module Optional {
  datatype Option<+T> = None | Some(value: T)
}
