/** Swift's `Error` existential, closed over the error types the quiz creates or meets. */
module Errors {

  /** `NSURLErrorDomain`, the domain of every error `URLSession` reports. */
  const NSURLErrorDomain: string := "NSURLErrorDomain"

  /** `NSURLErrorCancelled`, the code of a cancelled `URLSession` task. */
  const NSURLErrorCancelled: int := -999

  datatype Error =
    /** An error created outside the core (an `NSError`, a `URLError`, a test double),
        seen through its `NSError` bridge: domain, code and localized description. */
    | Foreign(domain: string, code: int, description: string)
    /** `DecodingError`, thrown by `JSONDecoder`. */
    | Decoding
    /** `NetworkClient.NetworkError` (NetworkClient.swift). */
    | Client(clientError: ClientError)
    /** The top-level `NetworkError` of MoviesLoader.swift. */
    | Loader(loaderError: LoaderError)

  /** `NetworkClient.NetworkError`. */
  datatype ClientError =
    | CodeError(statusCode: int)
    | InvalidData
    | InvalidResponse
    | RequestFailed(cause: Error)
    | Cancelled

  /** `NetworkError` of MoviesLoader.swift. */
  datatype LoaderError =
    | ConnectionError(cause: Error)
    | ServerError(message: string)
    | LoaderInvalidResponse
    | DecodingFailed(cause: Error)

  /** `(error as NSError).domain == NSURLErrorDomain`.  Errors declared by the quiz
      itself bridge to a domain named after their own type, never this one. */
  predicate InURLDomain(e: Error) {
    e.Foreign? && e.domain == NSURLErrorDomain
  }

  /** `(error as NSError).code == NSURLErrorCancelled`.  Only the code is compared,
      not the domain.  Errors declared by the quiz bridge to a non-negative code. */
  predicate IsCancellation(e: Error) {
    e.Foreign? && e.code == NSURLErrorCancelled
  }
}
