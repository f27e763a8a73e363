/** Option and Result values: the error paths of the session's operations. */
module Results {

  /** A value that may be absent (Python's `None`). */
  datatype Option<+T> = None | Some(value: T)

  /** Either a value or the error a provider raised. */
  datatype Result<+T, +E> = Success(value: T) | Failure(error: E)

  /** The error a data provider raises; the session never catches or retries it. */
  datatype ProviderError = ProviderError(provider: string, cause: string)
}
