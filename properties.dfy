/** What the licensing client promises, stated about the model in ApiClient:
    the status table the validation follows, the three shapes of response body,
    the normalisation of failures, and the configuration examples. */
module ClientProperties {
  import opened Wrappers
  import opened Json
  import opened ApiTypes
  import opened ApiClient

  /* ---------------------------------------------------------------------- */
  /* The status table                                                       */
  /* ---------------------------------------------------------------------- */

  /** The status mapping as a table of disjoint rows; a code in no row is Valid. */
  const StatusTable: seq<(int, LicenseStatus)> := [
    (400, NotFound), (404, NotFound),
    (401, Invalid),
    (402, Expired), (410, Expired),
    (429, LimitReached),
    (500, InternalServerError)
  ]

  /** The status of the first row for `code`, Valid when there is none. */
  function LookupStatus(table: seq<(int, LicenseStatus)>, code: int): LicenseStatus
  {
    if table == [] then Valid
    else if table[0].0 == code then table[0].1
    else LookupStatus(table[1..], code)
  }

  predicate DistinctCodes(table: seq<(int, LicenseStatus)>)
  {
    forall i, j :: 0 <= i < j < |table| ==> table[i].0 != table[j].0
  }

  /** In a table of distinct codes the row for `code` decides, wherever it stands:
      the order of the rows does not matter. */
  lemma {:induction false} LookupFindsRow(table: seq<(int, LicenseStatus)>, i: nat, code: int)
    requires DistinctCodes(table)
    requires i < |table| && table[i].0 == code
    ensures LookupStatus(table, code) == table[i].1
  {
    if i > 0 {
      assert table[0].0 != code;
      assert DistinctCodes(table[1..]) by {
        forall k, l | 0 <= k < l < |table[1..]| ensures table[1..][k].0 != table[1..][l].0 {
          assert table[1..][k] == table[k + 1] && table[1..][l] == table[l + 1];
        }
      }
      assert table[1..][i - 1] == table[i];
      LookupFindsRow(table[1..], i - 1, code);
    }
  }

  /** A code in no row is Valid. */
  lemma {:induction false} LookupMissingRow(table: seq<(int, LicenseStatus)>, code: int)
    requires forall i :: 0 <= i < |table| ==> table[i].0 != code
    ensures LookupStatus(table, code) == Valid
  {
    if table != [] {
      assert table[0].0 != code;
      forall i | 0 <= i < |table[1..]| ensures table[1..][i].0 != code {
        assert table[1..][i] == table[i + 1];
      }
      LookupMissingRow(table[1..], code);
    }
  }

  lemma StatusTableDistinct()
    ensures DistinctCodes(StatusTable)
  {
  }

  /** The chain of tests in `validateLicense` computes exactly the table. */
  lemma MapStatusMatchesTable(code: int)
    ensures MapStatus(code) == LookupStatus(StatusTable, code)
  {
    StatusTableDistinct();
    var t := StatusTable;
    if code == 400 { LookupFindsRow(t, 0, code); }
    else if code == 404 { LookupFindsRow(t, 1, code); }
    else if code == 401 { LookupFindsRow(t, 2, code); }
    else if code == 402 { LookupFindsRow(t, 3, code); }
    else if code == 410 { LookupFindsRow(t, 4, code); }
    else if code == 429 { LookupFindsRow(t, 5, code); }
    else if code == 500 { LookupFindsRow(t, 6, code); }
    else { LookupMissingRow(t, code); }
  }

  /* ---------------------------------------------------------------------- */
  /* The shapes of response body                                            */
  /* ---------------------------------------------------------------------- */

  /** A validation-failure body gives status 400 and its issues, whatever status
      the service sent and even when the body also has `data`. */
  lemma IssuesTakePriority(
    c: Client, verb: HttpMethod, endpoint: string, data: Option<Json>,
    send: HttpRequest -> Transport, status: int, body: Json)
    requires send(PrepareRequest(c, verb, endpoint, data)) == Completed(status, body)
    requires HasIssues(body)
    ensures Request(c, verb, endpoint, data, send)
      == Err(ApiError(ApiResponse(400, body.fields["error"].fields["issues"]), 400))
  {
  }

  /** An object with no issues and no `data` gives the real status and the whole body. */
  lemma MissingDataKeepsStatus(
    c: Client, verb: HttpMethod, endpoint: string, data: Option<Json>,
    send: HttpRequest -> Transport, status: int, body: Json)
    requires send(PrepareRequest(c, verb, endpoint, data)) == Completed(status, body)
    requires ProbesDefined(body) && !HasIssues(body) && !HasKey(body, "data")
    ensures Request(c, verb, endpoint, data, send) == Err(ApiError(ApiResponse(status, body), status))
  {
  }

  /** An object with `data` and no issues succeeds with the real status and `data` unchanged. */
  lemma DataPassesThrough(
    c: Client, verb: HttpMethod, endpoint: string, data: Option<Json>,
    send: HttpRequest -> Transport, status: int, body: Json)
    requires send(PrepareRequest(c, verb, endpoint, data)) == Completed(status, body)
    requires ProbesDefined(body) && !HasIssues(body) && HasKey(body, "data")
    ensures Request(c, verb, endpoint, data, send) == Ok(Success(status, body.fields["data"]))
  {
  }

  /** A body that is not an object, or whose `error` is not an object, makes `in`
      throw a TypeError, which the catch block turns into status 500. */
  lemma NonObjectBodyIs500(
    c: Client, verb: HttpMethod, endpoint: string, data: Option<Json>,
    send: HttpRequest -> Transport, status: int, body: Json)
    requires send(PrepareRequest(c, verb, endpoint, data)) == Completed(status, body)
    requires !ProbesDefined(body)
    ensures Request(c, verb, endpoint, data, send)
      == Err(ApiError(ApiResponse(500, Str(ProbeFailureMessage(body))), 500))
  {
  }

  /** A rejected round trip (network error, timeout abort, undecodable body) is
      status 500 with the error's message, or the fixed message for a non-Error. */
  lemma RejectionIs500(
    c: Client, verb: HttpMethod, endpoint: string, data: Option<Json>,
    send: HttpRequest -> Transport, message: Option<string>)
    requires send(PrepareRequest(c, verb, endpoint, data)) == Failed(message)
    ensures Request(c, verb, endpoint, data, send)
      == Err(ApiError(ApiResponse(500, Str(message.GetOr(UnknownErrorMessage))), 500))
  {
  }

  /* ---------------------------------------------------------------------- */
  /* Validation end to end                                                  */
  /* ---------------------------------------------------------------------- */

  /** Validation sends one POST of the payload to the base URL followed by
      "/api/client", with the bearer token, and with the client's timeout as the delay passed to
      `setTimeout` for the abort. */
  lemma ValidationRequest(c: Client, payload: Payload)
    ensures PrepareRequest(c, POST, ValidateEndpoint, Some(payload.ToJson()))
      == HttpRequest(POST, c.baseUrl + "/api/client", Headers(c), Some(payload.ToJson()), c.timeout)
  {
  }

  /** Whatever the service puts in `data` comes back as the license, unchanged,
      with the status looked up in the table. */
  lemma LicensePassesThrough(
    c: Client, payload: Payload, send: HttpRequest -> Transport, status: int, license: Json)
    requires send(PrepareRequest(c, POST, ValidateEndpoint, Some(payload.ToJson())))
      == Completed(status, Obj(map["data" := license]))
    ensures ValidateLicense(c, payload, send) == Ok(Validation(license, LookupStatus(StatusTable, status)))
  {
    MapStatusMatchesTable(status);
  }

  /** A validation failure surfaces as an error even at a success status. */
  lemma ValidationFailureFails(
    c: Client, payload: Payload, send: HttpRequest -> Transport, status: int, issues: Json)
    requires send(PrepareRequest(c, POST, ValidateEndpoint, Some(payload.ToJson())))
      == Completed(status, Obj(map["error" := Obj(map["issues" := issues, "name" := Str("ZodError")])]))
    ensures ValidateLicense(c, payload, send) == Err(ApiError(ApiResponse(400, issues), 400))
  {
  }

  /* ---------------------------------------------------------------------- */
  /* Examples                                                               */
  /* ---------------------------------------------------------------------- */

  /** One trailing slash goes, and only one. */
  lemma BaseUrlExamples()
    ensures NewClient(ApiConfig("https://api.example.com/", "k", None)).baseUrl == "https://api.example.com"
    ensures Url(NewClient(ApiConfig("https://api.example.com/", "k", None)), ValidateEndpoint)
      == "https://api.example.com/api/client"
    ensures NormaliseBaseUrl("x//") == "x/"
    ensures NormaliseBaseUrl("x") == "x"
  {
  }

  /** The timeout is 3000 when absent and kept as given otherwise, even when 0. */
  lemma TimeoutExamples()
    ensures NewClient(ApiConfig("u", "k", None)).timeout == 3000
    ensures NewClient(ApiConfig("u", "k", Some(0))).timeout == 0
  {
  }

  /** A body `{"foo": "bar"}` at 403 is an error carrying 403 and the body. */
  lemma UnclassifiedExample(c: Client, payload: Payload, send: HttpRequest -> Transport)
    requires send(PrepareRequest(c, POST, ValidateEndpoint, Some(payload.ToJson())))
      == Completed(403, Obj(map["foo" := Str("bar")]))
    ensures ValidateLicense(c, payload, send)
      == Err(ApiError(ApiResponse(403, Obj(map["foo" := Str("bar")])), 403))
  {
  }

  /** A body `null` is a TypeError, so status 500 with the engine's message. */
  lemma PrimitiveBodyExample(c: Client, payload: Payload, send: HttpRequest -> Transport)
    requires send(PrepareRequest(c, POST, ValidateEndpoint, Some(payload.ToJson()))) == Completed(200, Null)
    ensures ValidateLicense(c, payload, send)
      == Err(ApiError(ApiResponse(500, Str("Cannot use 'in' operator to search for 'error' in null")), 500))
  {
    assert InTypeErrorMessage("error", Null) == "Cannot use 'in' operator to search for 'error' in null";
  }
}
