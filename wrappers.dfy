/** Optional values, results and the Python exceptions the pipeline raises or catches. */
module Wrappers {

  datatype Option<+T> = None | Some(value: T)

  /** The exceptions of the core, by the Python class or message that raises them. */
  datatype Exception =
    | TypeError
    | ValueError
    | AttributeError
    | KeyError
    | IndexError
    | InvalidOperation          // decimal.InvalidOperation
    | OverflowError
    | RequestFailed             // requests raised: timeout, connection error
    | MaxRetries(status: int)   // "Max retries reached. Last status code: ..."
    | UnexpectedStatus(status: int)
    | HttpError(status: int)    // response.raise_for_status()
    | TokenRefreshFailed        // "Failed to get access token: ..."
    | MissingConfig             // "Missing ClickHouse connection environment variables"
    | StoreFailure              // the column store or metadata store raised

  datatype Result<+T> = Ok(value: T) | Err(error: Exception) {
    predicate IsFailure() { Err? }

    function PropagateFailure<U>(): Result<U>
      requires Err?
    {
      Err(error)
    }

    function Extract(): T
      requires Ok?
    {
      value
    }
  }
}
