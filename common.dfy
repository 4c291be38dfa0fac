/** Values shared by the runtime and the diagram. */
module Common {
  /** A value that may be absent: `null`/`undefined` in the program. */
  datatype Option<T> = None | Some(value: T)
}
