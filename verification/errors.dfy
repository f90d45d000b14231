/** The two ways a binding call can fail: a Rust panic (an `unwrap` on an
    error, a remainder by zero, an explicit `panic!`), and an error value
    handed back to JavaScript as a `napi::Error`. */
module Errors {
  import Decimal

  /** Why a call panicked. */
  datatype PanicCause =
    | UnwrapParseError(error: Decimal.ParseIntError)  // `.parse().unwrap()` on a bad id
    | RemainderByZero                                 // `x % 0` on a u64
    | NotImplemented                                  // `panic!("not implemented")`
    | UnwrapNone                                      // `.unwrap()` on `None`

  /** The result of a call that may panic instead of returning. */
  datatype Outcome<+T> = Return(value: T) | Panic(cause: PanicCause)

  /** The N-API status codes this binding produces or receives. */
  datatype Status = Ok | Unknown | GenericFailure | Closing | QueueFull

  /** An error raised into the voice library's own error types, which the
      binding does not inspect; only its text is visible. */
  datatype LibraryError = LibraryError(description: string)

  /** A `napi::Error` as the binding builds it. */
  datatype NapiError =
    | FromStatus(status: Status)          // `Error::from_status`
    | FromReason(reason: string)          // `Error::from_reason`
    | FromLibrary(cause: LibraryError)    // the crate's `to_napi_error`
}
