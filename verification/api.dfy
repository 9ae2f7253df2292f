/** Vocabulary shared by the session layer: optional values and the outcome
    of one call of the HTTP client in lib/api.ts. The client itself (fetch,
    headers, JSON bodies) is not modelled; each call is an oracle whose reply
    is given to the operation that makes it. */
module Api {

  /** `T | null` of the source. */
  datatype Option<+T> = None | Some(value: T)

  /** The outcome of one request: the `data` field of a 2xx envelope, or the
      Error that the client throws. Its message is any string: `FailureMessage`
      when the error body parses as JSON, otherwise the runtime's own text. */
  datatype ApiResult<+T> = Ok(data: T) | Err(message: string)

  /** Fallback messages the client throws when a failure body has no `message`. */
  const RegisterFallback := "Registration failed"
  const LoginFallback := "Login failed"
  const RefreshFallback := "Token refresh failed"
  const PredictFallback := "Prediction failed"
  const LogoutFallback := "Logout failed"

  /** The message a failed call carries when its error body parses as JSON:
      the body's message when it is a non-empty string, the operation's
      fallback otherwise. */
  function FailureMessage(bodyMessage: Option<string>, fallback: string): (m: string)
    requires fallback != ""
    ensures m != ""
    ensures bodyMessage.Some? && bodyMessage.value != "" ==> m == bodyMessage.value
    ensures (bodyMessage.None? || bodyMessage.value == "") ==> m == fallback
  {
    match bodyMessage
    case Some(text) => if text != "" then text else fallback
    case None => fallback
  }
}
