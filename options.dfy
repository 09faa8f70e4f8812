/** An optional value: stands for a TypeScript field or property that may be `undefined`. */
module Options {
  datatype Option<+T> = None | Some(value: T)
}
