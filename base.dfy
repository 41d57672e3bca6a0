/** Optional values and success-or-error results, used for JavaScript's
    `undefined` / `null` fields and for operations that may throw. */
module Base {

  datatype Option<+T> = None | Some(value: T)

  datatype Result<+T, +E> = Ok(value: T) | Err(error: E)
}
