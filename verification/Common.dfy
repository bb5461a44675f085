/** The one helper datatype the modules share. */
module Common {
  /** A value that may be absent: the source's NULL pointers and unset fields. */
  datatype Option<+T> = None | Some(value: T)
}
