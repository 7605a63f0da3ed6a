/**
 * The two shapes the bridge uses for "no value" and "this call raised":
 * Option for Python's None, Result for a value or the exception raised
 * instead of it.
 */
module Results {

  datatype Option<+T> = None | Some(value: T)

  datatype Result<+T, +E> = Success(value: T) | Failure(error: E)
}
