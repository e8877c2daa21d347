/** Optional values, for the fields a YAML document may leave out, and results,
    for the operations that throw in the original. */
module Options {

  datatype Option<+T> = None | Some(value: T)

  datatype Result<+T, +E> = Ok(value: T) | Err(error: E)
}
