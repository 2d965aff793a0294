/** Failure-carrying values shared by every module of the model.
    Go's `error` return becomes an `Outcome` (Pass is a nil error), a
    `(T, error)` pair becomes a `Result<T>`, and a nil pointer an `Option`. */
module Wrappers {

  datatype Option<T> = None | Some(value: T)

  /** The errors the modelled code can produce or pass through. Go errors are
      opaque values; the model keeps only which step produced them, so that
      "returns the underlying error unchanged" can be stated as equality. */
  datatype Error =
    | DecodeError                          // json.Unmarshal rejected the bytes
    | ValidationError(fields: seq<string>) // fields that failed the `required` tag, in declaration order
    | UnknownStateError(state: string)     // "Unknown PdpState: %s"
    | InvalidIdentifier                    // "name and version must be non-empty"
    | SyntaxError(text: string)            // strconv: not a decimal integer
    | RangeError(text: string)             // strconv: outside the 64-bit range
    | InvalidLogLevel(text: string)        // logrus.ParseLevel: not a level name
    | MarshalError                         // json.Marshal failed
    | TransportError(reason: string)       // reported by Kafka or by a status sender

  datatype Outcome = Pass | Fail(error: Error)

  datatype Result<T> = Ok(value: T) | Err(error: Error)
}
