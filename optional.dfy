/** The usual optional value, standing for TypeScript's `T | null`. */
module Optional {

  datatype Option<T> = None | Some(value: T)
}
