/** Optional values and the outcome of a reducer that may throw. */
module Results {

  /** A value that may be absent: the source's `null`/`undefined` fields. */
  datatype Option<+T> = None | Some(value: T)

  /** A reducer either returns the next state or throws an `Error` whose message is kept. */
  datatype Result<+T> = Success(value: T) | Failure(error: string)
}
