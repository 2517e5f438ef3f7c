/** An optional value: the model's stand-in for a TypeScript `T | null` or `T | undefined`. */
module Optional {
  datatype Option<T> = None | Some(value: T)
}
