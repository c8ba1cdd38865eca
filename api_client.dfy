/** The licensing client (src/core/ApiClient.ts): configuration normalisation,
    construction of the one HTTP request, classification of the decoded response
    body, normalisation of everything thrown into an ApiError, and the mapping of
    the HTTP status code onto a LicenseStatus.

    The network round trip is a parameter `send`: given the request the client
    hands to `fetch`, it says how the round trip ended (a status and a decoded
    body, or a failure with or without an error message). */
module ApiClient {
  import opened Wrappers
  import opened Json
  import opened ApiTypes

  /** The only error the client surfaces: `data` is a `{status, data}` record. */
  datatype ApiError = ApiError(data: ApiResponse, status: int)

  /** What `request` resolves with. */
  datatype Success<T> = Success(statusCode: int, data: T)

  /** What `validateLicense` resolves with. */
  datatype Validation<T> = Validation(license: T, status: LicenseStatus)

  /** The client's settings, fixed at construction. */
  datatype Client = Client(baseUrl: string, apiKey: string, timeout: int)

  const DefaultTimeout: int := 3000
  const UnknownErrorMessage: string := "Unknown error occurred"
  const ValidateEndpoint: string := "/api/client"
  const BearerPrefix: string := "Bearer "

  /* ---------------------------------------------------------------------- */
  /* Configuration                                                          */
  /* ---------------------------------------------------------------------- */

  predicate EndsWithSlash(s: string)
  {
    |s| > 0 && s[|s| - 1] == '/'
  }

  /** `baseUrl.replace(/\/$/, "")`: the pattern has neither the global nor the
      multi-line flag, so at most one '/' goes, and only at the very end. */
  function NormaliseBaseUrl(s: string): (r: string)
    ensures r <= s
    ensures |r| >= |s| - 1
    ensures |r| < |s| <==> EndsWithSlash(s)
  {
    if EndsWithSlash(s) then s[..|s| - 1] else s
  }

  /** The constructor: the base URL normalised, the key kept, and the timeout
      taken from the configuration unless it is absent (`??` keeps 0). */
  function NewClient(config: ApiConfig): (c: Client)
    ensures c.baseUrl == NormaliseBaseUrl(config.baseUrl)
    ensures c.apiKey == config.apiKey
    ensures config.timeout.Some? ==> c.timeout == config.timeout.value
    ensures config.timeout.None? ==> c.timeout == DefaultTimeout
  {
    Client(NormaliseBaseUrl(config.baseUrl), config.apiKey, config.timeout.GetOr(DefaultTimeout))
  }

  /* ---------------------------------------------------------------------- */
  /* The request handed to fetch                                            */
  /* ---------------------------------------------------------------------- */

  /** Everything `fetch` is given: `body` is the value to be JSON-encoded, and
      `abortAfterMs` is the delay passed to `setTimeout` for the abort. */
  datatype HttpRequest = HttpRequest(
    verb: HttpMethod,
    url: string,
    headers: seq<(string, string)>,
    body: Option<Json>,
    abortAfterMs: int)

  /** The request URL: the base URL followed by the endpoint, nothing inserted. */
  function Url(c: Client, endpoint: string): (u: string)
    ensures |u| == |c.baseUrl| + |endpoint|
    ensures u[..|c.baseUrl|] == c.baseUrl && u[|c.baseUrl|..] == endpoint
  {
    c.baseUrl + endpoint
  }

  /** The two headers, in order: the bearer token, then the JSON content type. */
  function Headers(c: Client): (h: seq<(string, string)>)
    ensures |h| == 2
    ensures h[0].0 == "Authorization"
    ensures |h[0].1| == |BearerPrefix| + |c.apiKey|
    ensures h[0].1[..|BearerPrefix|] == BearerPrefix && h[0].1[|BearerPrefix|..] == c.apiKey
    ensures h[1] == ("Content-Type", "application/json")
  {
    [("Authorization", BearerPrefix + c.apiKey), ("Content-Type", "application/json")]
  }

  /** `data ? JSON.stringify(data) : undefined`: a body is sent exactly when the
      argument is present and truthy, and it is that argument. */
  function RequestBody(data: Option<Json>): (b: Option<Json>)
    ensures b.Some? <==> data.Some? && Truthy(data.value)
    ensures b.Some? ==> b == data
  {
    if data.Some? && Truthy(data.value) then data else None
  }

  /** The arguments of `fetch` and the delay passed to `setTimeout` for the abort. */
  function PrepareRequest(c: Client, verb: HttpMethod, endpoint: string, data: Option<Json>): (r: HttpRequest)
    ensures r.verb == verb
    ensures r.url == Url(c, endpoint)
    ensures r.headers == Headers(c)
    ensures r.body == RequestBody(data)
    ensures r.abortAfterMs == c.timeout
  {
    HttpRequest(verb, Url(c, endpoint), Headers(c), RequestBody(data), c.timeout)
  }

  /* ---------------------------------------------------------------------- */
  /* Classifying the response and catching what is thrown                   */
  /* ---------------------------------------------------------------------- */

  /** How the round trip ended: a status and the decoded body, or a rejection
      (network error, abort by the timer, undecodable body) carrying the
      thrown value's message when it is an Error, `None` otherwise. The timer
      is cleared once `fetch` resolves with the headers, so only the wait for
      the headers can be aborted, not the reading of the body. */
  datatype Transport = Completed(status: int, body: Json) | Failed(message: Option<string>)

  /** What reaches the `catch` block. */
  datatype Thrown = ThrownApiError(error: ApiError) | ThrownError(message: string) | ThrownOther

  /** How the `try` block ends: it returns, or it throws. */
  datatype Outcome<T> = Returned(value: T) | Threw(thrown: Thrown)

  /** Neither `"error" in body` nor, when it is evaluated, `"issues" in body.error`
      throws a TypeError. */
  predicate ProbesDefined(body: Json)
  {
    IsObjectLike(body) && (HasKey(body, "error") ==> IsObjectLike(body.fields["error"]))
  }

  /** The body is a validation-failure envelope: its `error` holds `issues`. */
  predicate HasIssues(body: Json)
  {
    HasKey(body, "error") && HasKey(body.fields["error"], "issues")
  }

  /** The TypeError message of the first `in` that throws on `body`. */
  function ProbeFailureMessage(body: Json): string
    requires !ProbesDefined(body)
  {
    if !IsObjectLike(body) then InTypeErrorMessage("error", body)
    else InTypeErrorMessage("issues", body.fields["error"])
  }

  /** The guards of the `try` block after decoding, in their order: issues first
      (status forced to 400), then a missing `data` (the real status and the whole
      body), then success. A body on which `in` throws ends as a TypeError. */
  function Classify(status: int, body: Json): (o: Outcome<Success<Json>>)
    ensures !ProbesDefined(body) ==> o == Threw(ThrownError(ProbeFailureMessage(body)))
    ensures ProbesDefined(body) && HasIssues(body) ==>
      o == Threw(ThrownApiError(ApiError(ApiResponse(400, body.fields["error"].fields["issues"]), 400)))
    ensures ProbesDefined(body) && !HasIssues(body) && !HasKey(body, "data") ==>
      o == Threw(ThrownApiError(ApiError(ApiResponse(status, body), status)))
    ensures ProbesDefined(body) && !HasIssues(body) && HasKey(body, "data") ==>
      o == Returned(Success(status, body.fields["data"]))
  {
    match In("error", body)
    case Err(message) => Threw(ThrownError(message))
    case Ok(hasError) =>
      // `&&` short-circuits: `issues` is probed only when `error` is present
      var probeIssues := if hasError then In("issues", body.fields["error"]) else Ok(false);
      match probeIssues
      case Err(message) => Threw(ThrownError(message))
      case Ok(hasIssues) =>
        if hasIssues then
          var issues := body.fields["error"].fields["issues"];
          Threw(ThrownApiError(ApiError(ApiResponse(400, issues), 400)))
        else
          match In("data", body)
          case Err(message) => Threw(ThrownError(message))
          case Ok(hasData) =>
            if hasData then Returned(Success(status, body.fields["data"]))
            else Threw(ThrownApiError(ApiError(ApiResponse(status, body), status)))
  }

  /** The `catch` block: an ApiError is rethrown as it is, any other Error becomes
      status 500 carrying its message, anything else status 500 carrying a fixed
      message. */
  function Catch(t: Thrown): (e: ApiError)
    ensures t.ThrownApiError? ==> e == t.error
    ensures !t.ThrownApiError? ==> e.status == 500 && e.data.status == 500
    ensures t.ThrownError? ==> e.data.data == Str(t.message)
    ensures t.ThrownOther? ==> e.data.data == Str(UnknownErrorMessage)
  {
    match t
    case ThrownApiError(error) => error
    case ThrownError(message) => ApiError(ApiResponse(500, Str(message)), 500)
    case ThrownOther => ApiError(ApiResponse(500, Str(UnknownErrorMessage)), 500)
  }

  /** The Thrown value of a rejected round trip. */
  function Rejection(message: Option<string>): (t: Thrown)
    ensures t.ThrownError? <==> message.Some?
    ensures message.Some? ==> t.message == message.value
    ensures !t.ThrownApiError?
  {
    match message
    case Some(m) => ThrownError(m)
    case None => ThrownOther
  }

  /** `request`: one round trip, then the classification, with every throw
      caught and normalised. An error always carries a record whose status is
      its own, and that status is 400, 500 or the status the service sent. */
  function Request(
    c: Client, verb: HttpMethod, endpoint: string, data: Option<Json>,
    send: HttpRequest -> Transport): (r: Result<Success<Json>, ApiError>)
    ensures r.Err? ==> r.error.data.status == r.error.status
    ensures r.Err? ==>
      || r.error.status == 400
      || r.error.status == 500
      || (send(PrepareRequest(c, verb, endpoint, data)).Completed?
          && r.error.status == send(PrepareRequest(c, verb, endpoint, data)).status)
    ensures r.Ok? ==>
      && send(PrepareRequest(c, verb, endpoint, data)).Completed?
      && r.value.statusCode == send(PrepareRequest(c, verb, endpoint, data)).status
  {
    match send(PrepareRequest(c, verb, endpoint, data))
    case Failed(message) => Err(Catch(Rejection(message)))
    case Completed(status, body) =>
      match Classify(status, body)
      case Returned(success) => Ok(success)
      case Threw(t) => Err(Catch(t))
  }

  /* ---------------------------------------------------------------------- */
  /* License validation                                                     */
  /* ---------------------------------------------------------------------- */

  /** The chain of status tests in `validateLicense`: only the seven listed
      codes map to something other than Valid. */
  function MapStatus(code: int): (s: LicenseStatus)
    ensures s != Valid <==> code in {400, 401, 402, 404, 410, 429, 500}
  {
    if code == 400 || code == 404 then NotFound
    else if code == 401 then Invalid
    else if code == 402 then Expired
    else if code == 410 then Expired
    else if code == 429 then LimitReached
    else if code == 500 then InternalServerError
    else Valid
  }

  /** `validateLicense`: a POST of the payload to the validation endpoint; the
      license is the response's `data` whatever the status, the status is mapped,
      and a failed request fails the validation with the same error. */
  function ValidateLicense(c: Client, payload: Payload, send: HttpRequest -> Transport)
    : (r: Result<Validation<Json>, ApiError>)
    ensures Request(c, POST, ValidateEndpoint, Some(payload.ToJson()), send).Err? ==>
      r == Err(Request(c, POST, ValidateEndpoint, Some(payload.ToJson()), send).error)
    ensures Request(c, POST, ValidateEndpoint, Some(payload.ToJson()), send).Ok? ==>
      && r.Ok?
      && r.value.license == Request(c, POST, ValidateEndpoint, Some(payload.ToJson()), send).value.data
      && r.value.status == MapStatus(Request(c, POST, ValidateEndpoint, Some(payload.ToJson()), send).value.statusCode)
  {
    match Request(c, POST, ValidateEndpoint, Some(payload.ToJson()), send)
    case Err(e) => Err(e)
    case Ok(response) => Ok(Validation(response.data, MapStatus(response.statusCode)))
  }
}
