/** Header maps and the truthiness test the worker applies to header values. */
module Http {
  import opened Wrappers

  /** A header map as the worker builds it: a record from header name to value. */
  type Headers = map<string, string>

  /** JavaScript truthiness of a value returned by `Headers.get`: `null` and `""` are falsy. */
  predicate Truthy(v: Option<string>) {
    v.Some? && v.value != ""
  }
}
