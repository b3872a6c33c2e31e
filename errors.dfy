/** Error values thrown by the networking layer, and the Option/Result
    wrappers the model uses in place of Swift optionals and `throws`. */
module Errors {

  datatype Option<+T> = None | Some(value: T)

  /** An error the model cannot look inside: whatever the URL session (or any
      other foreign code) throws, e.g. a DNS failure or a timeout. */
  datatype Cause = Cause(description: string)

  /** The app's own error enumeration. */
  datatype NetworkError =
    | InvalidURL
    | NoData
    | DecodingError
    | ServerError(status: int)
    | Unknown(cause: Cause)

  /** Swift's existential `Error`: either one of the app's NetworkError cases
      or an error of foreign origin, which is rethrown without wrapping. */
  datatype Error = Network(err: NetworkError) | Foreign(cause: Cause)

  /** The outcome of an `async throws` call. */
  datatype Result<+T> = Success(value: T) | Failure(error: Error)
}
