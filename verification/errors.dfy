/** Errors reported by the proxy API and by parameter validation. */
module ApiErrors {
  import opened Types

  /** A parameter outside its allowed range. */
  datatype ParamError<T> = OutOfBounds(bounds: (T, T), value: T)

  /** `ParamError::out_of_bounds`. */
  function MakeOutOfBounds<T>(value: T, bounds: (T, T)): (e: ParamError<T>)
    ensures e.value == value && e.bounds == bounds
  {
    OutOfBounds(bounds, value)
  }

  /** Every error the API can report. */
  datatype ApiError =
    | Client(status: u16, text: string)
    | Server(status: u16, text: string)
    | ApiKey
    | RateLimit
    | DailyLimit
    | NoProxy
    | Unknown

  /** The HTTP status and body of a response the API rejected. */
  datatype NaiveResponse = NaiveResponse(status: u16, text: string)

  // The four messages the API is known to answer with, character for
  // character. The rate-limit message keeps a line break followed by 26
  // spaces before its link, as the source literal does.
  const INVALID_API_KEY: string :=
    "Invalid API. Get your API to make unlimited requests at http://pubproxy.com/#premium"
  const RATE_LIMIT: string :=
    "We have to temporarily stop you. You're requesting proxies a little too fast (2+ requests per second). Get your API to remove this limit at\n                          http://pubproxy.com/#premium"
  const DAILY_LIMIT: string :=
    "You reached the maximum 50 requests for today. Get your API to make unlimited requests at http://pubproxy.com/#premium"
  const NO_PROXY: string := "No proxy"

  /** The variants recognised from the response text alone. */
  predicate IsKnown(e: ApiError) {
    e.ApiKey? || e.RateLimit? || e.DailyLimit? || e.NoProxy?
  }

  /** The message the API sends for each recognised variant. */
  function MessageOf(e: ApiError): (m: string)
    requires IsKnown(e)
  {
    match e
    case ApiKey => INVALID_API_KEY
    case RateLimit => RATE_LIMIT
    case DailyLimit => DAILY_LIMIT
    case NoProxy => NO_PROXY
  }

  predicate IsKnownMessage(text: string) {
    text == INVALID_API_KEY || text == RATE_LIMIT || text == DAILY_LIMIT || text == NO_PROXY
  }

  /** `From<String> for ApiError`: classify a response body by exact match
      against the known messages. */
  function FromText(text: string): (e: ApiError)
    ensures e.Unknown? <==> !IsKnownMessage(text)
    ensures e.Unknown? || IsKnown(e)
  {
    match text
    case INVALID_API_KEY => ApiKey
    case RATE_LIMIT => RateLimit
    case DAILY_LIMIT => DailyLimit
    case NO_PROXY => NoProxy
    case _ => Unknown
  }

  /** The four messages are pairwise distinct, so each names one variant. */
  lemma MessagesDistinct()
    ensures INVALID_API_KEY != RATE_LIMIT && INVALID_API_KEY != DAILY_LIMIT
    ensures INVALID_API_KEY != NO_PROXY && RATE_LIMIT != DAILY_LIMIT
    ensures RATE_LIMIT != NO_PROXY && DAILY_LIMIT != NO_PROXY
  {
    assert |INVALID_API_KEY| == 84 && |RATE_LIMIT| == 194;
    assert |DAILY_LIMIT| == 118 && |NO_PROXY| == 8;
  }

  /** Each known message is classified as its own variant. */
  lemma KnownMessagesClassified()
    ensures FromText(INVALID_API_KEY) == ApiKey
    ensures FromText(RATE_LIMIT) == RateLimit
    ensures FromText(DAILY_LIMIT) == DailyLimit
    ensures FromText(NO_PROXY) == NoProxy
  {
    MessagesDistinct();
  }

  /** Classification and `MessageOf` are inverse: a recognised variant comes
      from its own message and from no other text. */
  lemma ClassifyMessageRoundTrip(e: ApiError, text: string)
    requires IsKnown(e)
    ensures FromText(MessageOf(e)) == e
    ensures FromText(text) == e <==> text == MessageOf(e)
  {
    KnownMessagesClassified();
  }

  /** The status conversion has a defined outcome: the text is a known
      message, or the status is a client or server error. Any other status
      with unrecognised text is a defect the source refuses to handle. */
  predicate Classifiable(resp: NaiveResponse) {
    IsKnownMessage(resp.text) || 400 <= resp.status < 600
  }

  /** `From<NaiveResponse> for ApiError`: the text decides first; unknown
      text is then refined by the status range. */
  function FromResponse(resp: NaiveResponse): (e: ApiError)
    requires Classifiable(resp)
    ensures !e.Unknown?
    ensures IsKnownMessage(resp.text) ==> e == FromText(resp.text)
    ensures !IsKnownMessage(resp.text) && 400 <= resp.status < 500 ==>
              e == Client(resp.status, resp.text)
    ensures !IsKnownMessage(resp.text) && 500 <= resp.status < 600 ==>
              e == Server(resp.status, resp.text)
  {
    match FromText(resp.text)
    case Unknown =>
      if 400 <= resp.status < 500 then Client(resp.status, resp.text)
      else Server(resp.status, resp.text)
    case err => err
  }

  /** A known message wins over any status code. */
  lemma KnownTextIgnoresStatus(text: string, s1: u16, s2: u16)
    requires IsKnownMessage(text)
    ensures FromResponse(NaiveResponse(s1, text)) == FromResponse(NaiveResponse(s2, text))
    ensures IsKnown(FromResponse(NaiveResponse(s1, text)))
  {
  }

  /** The status-carrying variants arise exactly from unknown text, with the
      status range deciding between them and status and text kept intact. */
  lemma StatusVariantsCharacterised(resp: NaiveResponse)
    requires Classifiable(resp)
    ensures FromResponse(resp).Client? <==> !IsKnownMessage(resp.text) && resp.status < 500
    ensures FromResponse(resp).Server? <==> !IsKnownMessage(resp.text) && resp.status >= 500
    ensures FromResponse(resp).Client? || FromResponse(resp).Server? ==>
              FromResponse(resp).status == resp.status && FromResponse(resp).text == resp.text
  {
  }
}
