/** The shapes the dispatcher sees on the wire, and the response classifier
    (`Api::checkResponse`). */
module Http {
  import opened Wrappers

  datatype HttpMethod = Get | Post | Put | Delete

  /** A decoded response body as `Request::getResponse` hands it back:
      `null` (nothing received yet), a scalar (a body that is not a PHP array),
      or an array whose string keys map to a value or to `null`. */
  datatype Response =
    | Null
    | Scalar(text: string)
    | Array(entries: map<string, Option<string>>)

  const ERROR_DESCRIPTION: string := "error_description"
  const API_ERROR_PREFIX: string := "API Error :: "

  /** `is_array($response) && isset($response['error_description'])`:
      the error envelope's message, when there is one. */
  function ErrorDescription(response: Response): (d: Option<string>)
    ensures d.Some? <==> response.Array? && ERROR_DESCRIPTION in response.entries
                         && response.entries[ERROR_DESCRIPTION].Some?
    ensures d.Some? ==> d.value == response.entries[ERROR_DESCRIPTION].value
  {
    if response.Array? && ERROR_DESCRIPTION in response.entries then
      response.entries[ERROR_DESCRIPTION]
    else
      None
  }

  /** The three outcomes of checking a response. */
  datatype Verdict = Accepted | Expired | Rejected(description: string)

  /** The decision `checkResponse` takes, apart from its side effect on the
      expiry flag. `sentinel` is the expired-access-token message the server
      sends inside a 200-level error envelope. */
  function Classify(response: Response, sentinel: string): (v: Verdict)
    ensures v == Accepted <==> ErrorDescription(response).None?
    ensures v == Expired <==> ErrorDescription(response) == Some(sentinel)
    ensures v.Rejected? <==> ErrorDescription(response).Some? && ErrorDescription(response).value != sentinel
    ensures v.Rejected? ==> v.description == ErrorDescription(response).value
  {
    match ErrorDescription(response)
    case None => Accepted
    case Some(d) => if d == sentinel then Expired else Rejected(d)
  }

  /** The exception `checkResponse` throws for a rejected response. */
  function ApiError(description: string): (e: Error)
    ensures e.Exception? && API_ERROR_PREFIX <= e.message
    ensures e.message[|API_ERROR_PREFIX|..] == description
  {
    Exception(API_ERROR_PREFIX + description)
  }
}
