/** The front end's HTTP client (apps/web/lib/api.ts): the APIError class, the
    normalisation of whatever a request throws into an APIError, and the
    backend connection test. The fetch itself, its timer and its AbortController
    are outside the model: a request is described by its outcome. */
module WebApi {
  import opened Wrappers
  import Text

  /** An instance of class APIError. Its `name` is always "APIError". */
  datatype ApiError = ApiError(status: nat, statusText: string, message: string)

  /** The message an APIError gets when none (or an empty one) is given. */
  function DefaultMessage(status: nat, statusText: string): string
  {
    Text.NatToString(status) + " " + statusText
  }

  /** `new APIError(status, statusText, message?)`: the message falls back to
      "{status} {statusText}" when it is missing or empty (JavaScript `||`). */
  function NewApiError(status: nat, statusText: string, message: Option<string>): (e: ApiError)
    ensures e.status == status && e.statusText == statusText
    ensures e.message != []
    ensures message.Some? && message.value != [] ==> e.message == message.value
    ensures message.None? || message.value == [] ==>
      e.message == DefaultMessage(status, statusText)
  {
    var m := if message.Some? && message.value != [] then message.value
             else DefaultMessage(status, statusText);
    ApiError(status, statusText, m)
  }

  /** A value thrown in JavaScript: an APIError, another Error (with its `name`
      and `message`), or a thrown value that is not an Error at all. */
  datatype Thrown =
    | ThrownApiError(apiError: ApiError)
    | ThrownError(name: string, message: string)
    | ThrownOther

  /** `err instanceof Error` (an APIError is an Error too). */
  predicate IsError(t: Thrown)
  {
    !t.ThrownOther?
  }

  /** `err.message` of a thrown Error. */
  function ErrorMessage(t: Thrown): string
    requires IsError(t)
  {
    match t
    case ThrownApiError(e) => e.message
    case ThrownError(_, m) => m
  }

  const TimeoutError: ApiError := ApiError(408, "Request Timeout", "Request took too long to complete")
  const UnknownError: ApiError := ApiError(500, "Internal Error", "Unknown error occurred")

  /** The catch block of apiClient.get and apiClient.post: an APIError is
      rethrown as it is, an AbortError becomes a 408, any other Error a 500 with
      its message, and anything else a 500 "Unknown error occurred". */
  function Classify(t: Thrown): (e: ApiError)
    ensures t.ThrownApiError? ==> e == t.apiError
    ensures t.ThrownError? && t.name == "AbortError" ==> e == TimeoutError
    ensures t.ThrownError? && t.name != "AbortError" ==>
      e == NewApiError(500, "Internal Error", Some(t.message))
    ensures t.ThrownOther? ==> e == UnknownError
  {
    match t
    case ThrownApiError(e) => e
    case ThrownError(name, message) =>
      if name == "AbortError" then NewApiError(408, "Request Timeout", Some("Request took too long to complete"))
      else NewApiError(500, "Internal Error", Some(message))
    case ThrownOther => NewApiError(500, "Internal Error", Some("Unknown error occurred"))
  }

  /** The body read by `await response.text()`: its text, or what reading it threw. */
  datatype BodyText = TextRead(text: string) | TextThrew(reason: Thrown)

  /** The body parsed by `response.json()`: its value, or what parsing it threw. */
  datatype BodyJson<T> = JsonParsed(value: T) | JsonThrew(reason: Thrown)

  /** What `fetch` did: it resolved to a response, or it threw (network failure,
      abort by the timer). */
  datatype FetchOutcome<T> =
    | Responded(ok: bool, status: nat, statusText: string, text: BodyText, json: BodyJson<T>)
    | FetchThrew(reason: Thrown)

  /** How the promise a request returns settles. */
  datatype Settled<T> = Fulfilled(value: T) | Rejected(reason: Thrown)

  /** The try block and catch of a request. A non-ok response throws an APIError
      carrying its status, statusText and body text, which the catch rethrows.
      `return response.json()` is not awaited inside the try, so a body that fails
      to parse rejects the promise with the parser's own error, unclassified. */
  function Settle<T>(o: FetchOutcome<T>): (s: Settled<T>)
    ensures o.FetchThrew? ==> s == Rejected(ThrownApiError(Classify(o.reason)))
    ensures o.Responded? && !o.ok && o.text.TextRead? ==>
      s == Rejected(ThrownApiError(NewApiError(o.status, o.statusText, Some(o.text.text))))
    ensures o.Responded? && !o.ok && o.text.TextThrew? ==>
      s == Rejected(ThrownApiError(Classify(o.text.reason)))
    ensures o.Responded? && o.ok ==>
      s == (if o.json.JsonParsed? then Fulfilled(o.json.value) else Rejected(o.json.reason))
  {
    match o
    case FetchThrew(t) => Rejected(ThrownApiError(Classify(t)))
    case Responded(ok, status, statusText, text, json) =>
      if !ok then
        match text
        case TextRead(body) =>
          Rejected(ThrownApiError(Classify(ThrownApiError(NewApiError(status, statusText, Some(body))))))
        case TextThrew(t) => Rejected(ThrownApiError(Classify(t)))
      else
        match json
        case JsonParsed(v) => Fulfilled(v)
        case JsonThrew(t) => Rejected(t)
  }

  /** apiClient.get(endpoint). */
  function Get<T>(endpoint: string, o: FetchOutcome<T>): (r: Settled<T>)
    ensures r.Fulfilled? <==> o.Responded? && o.ok && o.json.JsonParsed?
    ensures o.FetchThrew? ==> r == Rejected(ThrownApiError(Classify(o.reason)))
    ensures o.Responded? && !o.ok && o.text.TextThrew? ==>
      r == Rejected(ThrownApiError(Classify(o.text.reason)))
  {
    Settle(o)
  }

  /** apiClient.post(endpoint, data): the request differs from get (method,
      headers, JSON body), the handling of its outcome does not. */
  function Post<T, D>(endpoint: string, data: D, o: FetchOutcome<T>): (r: Settled<T>)
    ensures r.Fulfilled? <==> o.Responded? && o.ok && o.json.JsonParsed?
    ensures o.FetchThrew? ==> r == Rejected(ThrownApiError(Classify(o.reason)))
    ensures o.Responded? && !o.ok && o.text.TextThrew? ==>
      r == Rejected(ThrownApiError(Classify(o.text.reason)))
  {
    Settle(o)
  }

  /** A non-ok response whose body could be read rejects with an APIError holding
      exactly that status, statusText and body text (or the default message when
      the body is empty). */
  lemma NonOkResponseCarriesResponse<T>(status: nat, statusText: string, body: string, json: BodyJson<T>)
    ensures var r := Settle(Responded(false, status, statusText, TextRead(body), json));
      r.Rejected? && r.reason.ThrownApiError?
      && r.reason.apiError.status == status
      && r.reason.apiError.statusText == statusText
      && r.reason.apiError.message == (if body == [] then DefaultMessage(status, statusText) else body)
  {
  }

  /** Every rejection is an APIError, except exactly one: an ok response whose
      body fails to parse, which escapes the catch. Not every failure is
      normalised. */
  lemma RejectionNormalisedUnlessParseFails<T>(o: FetchOutcome<T>)
    ensures (Settle(o).Rejected? && !Settle(o).reason.ThrownApiError?) ==>
      o.Responded? && o.ok && o.json.JsonThrew? && Settle(o).reason == o.json.reason
    ensures o.Responded? && o.ok && o.json.JsonThrew? ==> Settle(o) == Rejected(o.json.reason)
  {
  }

  /** A request resolves exactly when the response is ok and its body parses. */
  lemma FulfilledIff<T>(o: FetchOutcome<T>)
    ensures Settle(o).Fulfilled? <==> o.Responded? && o.ok && o.json.JsonParsed?
    ensures Settle(o).Fulfilled? ==> Settle(o).value == o.json.value
  {
  }

  /** Classification is idempotent: a normalised error stays as it is when
      classified again, which is what the catch does with the APIError the try
      block throws. */
  lemma ClassifyIdempotent(t: Thrown)
    ensures Classify(ThrownApiError(Classify(t))) == Classify(t)
  {
  }

  /** What classification produces for a value that is not already an APIError:
      a 408 for an AbortError and a 500 otherwise, never with an empty message,
      and keeping a non-empty Error message. */
  lemma ClassifyNonApiError(t: Thrown)
    requires !t.ThrownApiError?
    ensures Classify(t).status == 408 <==> t.ThrownError? && t.name == "AbortError"
    ensures Classify(t).status == 500 <==> !(t.ThrownError? && t.name == "AbortError")
    ensures Classify(t).message != []
    ensures t.ThrownError? && t.name != "AbortError" && t.message != [] ==>
      Classify(t).message == t.message
  {
  }

  /** get and post apply the identical classification to the same outcome. In
      this model that holds by definition, since both are Settle of the
      outcome; the lemma records that api.ts:74-93 repeats api.ts:35-54. */
  lemma GetPostAgree<T, D>(e1: string, e2: string, data: D, o: FetchOutcome<T>)
    ensures Get(e1, o) == Post(e2, data, o)
  {
  }

  /** The APIResponse object testBackendConnection returns. */
  datatype ApiResponse<T> = ApiResponse(success: bool, data: Option<T>, error: Option<string>)

  /** The body of the health check. */
  datatype HealthCheck = HealthCheck(status: string, service: string)

  /** How testBackendConnection prints an APIError: "{status} {statusText}: {message}". */
  function ReportedText(e: ApiError): string
  {
    Text.NatToString(e.status) + " " + e.statusText + ": " + e.message
  }

  /** The catch of testBackendConnection: "{status} {statusText}: {message}" for
      an APIError, the message of another Error, "Unknown error occurred" for
      anything else. */
  function Report<T>(s: Settled<T>): (r: ApiResponse<T>)
    ensures r.success <==> s.Fulfilled?
    ensures r.success ==> r.data == Some(s.value) && r.error.None?
    ensures !r.success ==> r.data.None? && r.error.Some?
    ensures s.Rejected? && s.reason.ThrownApiError? ==> r.error == Some(ReportedText(s.reason.apiError))
    ensures s.Rejected? && s.reason.ThrownError? ==> r.error == Some(s.reason.message)
    ensures s.Rejected? && s.reason.ThrownOther? ==> r.error == Some("Unknown error occurred")
  {
    match s
    case Fulfilled(v) => ApiResponse(true, Some(v), None)
    case Rejected(t) =>
      var msg := match t
        case ThrownApiError(e) => ReportedText(e)
        case ThrownError(_, m) => m
        case ThrownOther => "Unknown error occurred";
      ApiResponse(false, None, Some(msg))
  }

  /** testBackendConnection(): GET /health and report the outcome. */
  function TestBackendConnection(o: FetchOutcome<HealthCheck>): (r: ApiResponse<HealthCheck>)
    ensures r.success <==> o.Responded? && o.ok && o.json.JsonParsed?
  {
    FulfilledIff(o);
    Report(Get("/health", o))
  }

  /** The status code 408 renders as "408". */
  lemma Render408()
    ensures Text.NatToString(408) == "408"
  {
    assert Text.NatToString(4) == "4";
    assert Text.NatToString(40) == "40";
  }

  /** The error text of a failed health check, for every outcome the request
      itself rejects: a thrown fetch is classified, a non-ok response becomes
      the APIError carrying its body text (or the default message), and a body
      that could not be read is classified. */
  lemma TestBackendConnectionErrors(o: FetchOutcome<HealthCheck>)
    ensures o.FetchThrew? ==> TestBackendConnection(o).error == Some(ReportedText(Classify(o.reason)))
    ensures o.Responded? && !o.ok && o.text.TextRead? ==>
      TestBackendConnection(o).error == Some(ReportedText(NewApiError(o.status, o.statusText, Some(o.text.text))))
    ensures o.Responded? && !o.ok && o.text.TextThrew? ==>
      TestBackendConnection(o).error == Some(ReportedText(Classify(o.text.reason)))
  {
  }

  /** The status code 500 renders as "500". */
  lemma Render500()
    ensures Text.NatToString(500) == "500"
  {
    assert Text.NatToString(5) == "5";
    assert Text.NatToString(50) == "50";
  }

  /** A fetch that fails with a plain Error (a network failure, say) is
      reported as "500 Internal Error: {message}" when that message is
      non-empty, and with "Unknown error occurred" as the message for a thrown
      non-Error. */
  lemma TestBackendConnectionNetworkFailure(name: string, message: string)
    requires name != "AbortError" && message != []
    ensures TestBackendConnection(FetchThrew(ThrownError(name, message))).error
      == Some("500" + " " + "Internal Error" + ": " + message)
    ensures TestBackendConnection(FetchThrew(ThrownOther)).error
      == Some("500" + " " + "Internal Error" + ": " + "Unknown error occurred")
  {
    Render500();
  }

  /** A health check the timer aborted reports
      "408 Request Timeout: Request took too long to complete". */
  lemma TestBackendConnectionTimeout(abortMessage: string)
    ensures TestBackendConnection(FetchThrew(ThrownError("AbortError", abortMessage))).error
      == Some("408" + " " + "Request Timeout" + ": " + "Request took too long to complete")
  {
    var o: FetchOutcome<HealthCheck> := FetchThrew(ThrownError("AbortError", abortMessage));
    assert Classify(o.reason) == TimeoutError;
    assert Get("/health", o) == Rejected(ThrownApiError(TimeoutError));
    Render408();
  }

  /** A health-check body that fails to parse is reported with the parser's own
      message when it threw an Error, or "Unknown error occurred" otherwise: it
      never went through the classification. */
  lemma TestBackendConnectionParseFailure(status: nat, statusText: string, text: BodyText, reason: Thrown)
    requires !reason.ThrownApiError?
    ensures TestBackendConnection(Responded(true, status, statusText, text, JsonThrew(reason))).error
      == Some(if reason.ThrownError? then reason.message else "Unknown error occurred")
  {
  }
}
