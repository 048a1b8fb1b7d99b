/** Value types shared by the whole model: optional values, and the results
    that Go returns as a `(value, error)` pair. */
module Common {

  /** A possibly absent value (a nil pointer or a JSON null in the source). */
  datatype Option<+T> = None | Some(value: T)

  /** The errors that reach the caller of a search or of a poll tick. The
      first two are never built by the model: they name what the search
      parameters, which stand for the transport and the JSON decoding, may
      return. The model itself only builds `TimeParseError`. */
  datatype Error =
    | TransportError(status: string)   // request failed, or the status was not 200
    | DecodeError(reason: string)      // the response body was not the expected JSON
    | TimeParseError(text: string)     // a timestamp field was not RFC 3339

  /** Go's `(value, error)` pair: exactly one of the two is meaningful. */
  datatype Result<+T> = Success(value: T) | Failure(error: Error)
}
