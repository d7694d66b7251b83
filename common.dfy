/** Small value types shared by every component of the model. */
module Common {

  /** A value that may be absent (JavaScript's `null`/`undefined`). */
  datatype Option<T> = None | Some(value: T)

  /** What one awaited backend query produced: either the call threw, or it
      resolved to the usual `{ data, error }` pair. */
  datatype Outcome<T> = Threw | Replied(error: Option<string>, data: Option<T>)

  /** `String.prototype.startsWith`. */
  predicate StartsWith(s: string, prefix: string) {
    |prefix| <= |s| && s[..|prefix|] == prefix
  }
}
