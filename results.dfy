/** Optional and fallible values, used for lookups that can miss and for the
    errors the modelled code raises. */
module Results {

  datatype Option<+T> = None | Some(value: T)

  datatype Result<+T, +E> = Success(value: T) | Failure(error: E)
}
