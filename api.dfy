// The frontend's error-message extraction for failed requests.
module Api {
  import opened Base

  /** The body an HTTP error response may carry: `{ error?, message? }`. */
  datatype ApiErrorBody = ApiErrorBody(error: Option<string>, message: Option<string>)

  /** What a failed `await` can throw: an HTTP-client error (with the
      transport's own message and possibly a response body), any other
      `Error`, or a thrown value that is not an `Error` at all. */
  datatype Thrown =
    | HttpClientError(message: string, responseData: Option<ApiErrorBody>)
    | PlainError(message: string)
    | NonError

  /** The body's `error` field as `||` sees it: a missing field reads as "". */
  function BodyError(err: Thrown): string
    requires err.HttpClientError?
  {
    match err.responseData
    case Some(ApiErrorBody(Some(e), _)) => e
    case _ => ""
  }

  function BodyMessage(err: Thrown): string
    requires err.HttpClientError?
  {
    match err.responseData
    case Some(ApiErrorBody(_, Some(m))) => m
    case _ => ""
  }

  /** `data?.error || data?.message || err.message` for client errors, the
      error's own message for other errors, "Unknown error" otherwise. The
      `||` chain skips empty strings as well as missing fields. */
  function GetErrorMessage(err: Thrown): (r: string)
    ensures err.HttpClientError? && BodyError(err) != "" ==> r == BodyError(err)
    ensures err.HttpClientError? && BodyError(err) == "" && BodyMessage(err) != "" ==> r == BodyMessage(err)
    ensures err.HttpClientError? && BodyError(err) == "" && BodyMessage(err) == "" ==> r == err.message
    ensures err.PlainError? ==> r == err.message
    ensures err.NonError? ==> r == "Unknown error"
  {
    match err
    case HttpClientError(transport, data) =>
      var error := if data.Some? && data.value.error.Some? then data.value.error.value else "";
      var message := if data.Some? && data.value.message.Some? then data.value.message.value else "";
      if error != "" then error else if message != "" then message else transport
    case PlainError(m) => m
    case NonError => "Unknown error"
  }

  /** An empty `error` field falls through to `message`. */
  lemma EmptyErrorFallsThrough(transport: string, message: string)
    requires message != ""
    ensures GetErrorMessage(HttpClientError(transport, Some(ApiErrorBody(Some(""), Some(message))))) == message
  {
  }

  /** The message is always one of the strings the error carries, or the fixed fallback. */
  lemma MessageComesFromError(err: Thrown)
    ensures var r := GetErrorMessage(err);
      match err
      case HttpClientError(t, _) => r == BodyError(err) || r == BodyMessage(err) || r == t
      case PlainError(m) => r == m
      case NonError => r == "Unknown error"
  {
  }
}
