/** Small shared vocabulary: an optional value and JavaScript string truthiness. */
module Common {

  /** A value that may be absent (`undefined` / `null` in the program). */
  datatype Option<+T> = None | Some(value: T)

  /** JavaScript truthiness of a possibly absent string: `undefined` and `""` are falsy. */
  predicate Truthy(s: Option<string>)
  {
    s.Some? && s.value != ""
  }
}
