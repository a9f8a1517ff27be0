/** Option and Result values shared by every module of the model. */
module Base {

  /** A value that may be absent: TypeScript's `T | null` or an optional property. */
  datatype Option<+T> = None | Some(value: T)

  /** The outcome of an asynchronous call: a resolved value or a thrown error. */
  datatype Result<+T, +E> = Success(value: T) | Failure(error: E)

  /** JavaScript truthiness of an optional string: present and not the empty string. */
  predicate Truthy(s: Option<string>) {
    s.Some? && s.value != ""
  }
}
