/** Values that may be absent, and results of calls that may fail. */
module Common {

  /** A JavaScript value that may be `undefined` or `null`. */
  datatype Option<+T> = None | Some(value: T)

  /** The outcome of an awaited call: a value, or a thrown error whose shape is not modelled. */
  datatype Result<+T> = Ok(value: T) | Failed

  /** JavaScript truthiness of a string that may be missing: `undefined`, `null` and `""` are falsy. */
  predicate Truthy(s: Option<string>) {
    s.Some? && s.value != ""
  }
}
