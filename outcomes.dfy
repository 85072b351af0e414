/** Optional values and the return-or-raise behaviour of a Python call. */
module Outcomes {

  /** Python's `Optional[T]`: `None` or a value. */
  datatype Option<+T> = None | Some(value: T)

  /** The exceptions the modelled code can raise, by kind. */
  datatype Error =
    | ConnectionFailure        // the HTTP library raised (timeout, refused connection, ...)
    | NotJson                  // decoding the reply body as JSON raised
    | ProviderError            // RuntimeError: the reply body carries an "error" key
    | TokenRefused             // RuntimeError: the token reply carries no "access_token" key
    | MissingKey(key: string)  // KeyError on a dictionary lookup
    | NotIterable              // TypeError: a list comprehension over None

  /** A Python call either returns a value or raises an exception. */
  datatype Outcome<+T> = Returned(value: T) | Raised(error: Error)
}
