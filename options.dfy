/** An optional value: the model's rendering of TypeScript's `T | null` and `T | undefined`. */
module Options {
  datatype Option<+T> = None | Some(value: T)
}
