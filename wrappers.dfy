/** Optional values and success-or-error results, used where the program
    checks for `undefined` or turns a thrown error into a response. */
module Wrappers {

  datatype Option<+T> = None | Some(value: T)

  datatype Result<+T, +E> = Ok(value: T) | Err(error: E)

  /** JavaScript truthiness of a value that is either absent or a string:
      `undefined` and `""` are both falsy. */
  predicate Truthy(s: Option<string>) {
    s.Some? && s.value != ""
  }
}
