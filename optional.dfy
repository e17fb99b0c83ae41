/** An optional value: stands for TypeScript's `null`/`undefined` and Python's `None`. */
module Optional {

  datatype Option<+T> = None | Some(value: T)
}
