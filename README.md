# License-validation client: a Dafny model of its translation logic

The Node SDK's `ApiClient` validates a software license against a remote
licensing service. It sends one authenticated HTTP request and turns the
service's answer into one of six `LicenseStatus` values. Any failure becomes a
single `ApiError { data, status }`.

This project models the decisions the client makes around that one `fetch`
call, as pure Dafny functions:

- `ApiClient.NewClient`: the constructor. It strips at most one trailing `/`
  from the base URL and defaults the timeout to 3000.
- `ApiClient.PrepareRequest`: the request handed to `fetch`. It has the URL,
  the `Authorization: Bearer <key>` and JSON content-type headers, the body
  (sent only when the argument is truthy) and the delay passed to `setTimeout` for the abort.
- `ApiClient.Classify` and `ApiClient.Catch`: the guards of `request`'s `try`
  block and its `catch` block. A body with `error.issues` is an error with
  status 400. A body without `data` is an error with the real status. Any
  other object succeeds. A body on which JavaScript's `in` throws a TypeError
  becomes an error with status 500, and so does a rejected round trip.
- `ApiClient.MapStatus` and `ApiClient.ValidateLicense`: the status table.
  The license returned is always the response's `data`, unchanged.

The network is a parameter, `send: HttpRequest -> Transport`. Given the
request, it says how the round trip ended. It either completed with a status
and a decoded JSON body, or it was rejected, with the thrown value's message
when that value is an `Error`. `ClientProperties` states the client's
promises about these functions.

Modules: `Wrappers` (Option, Result), `Json` (decoded JSON values, the `in`
operator, truthiness, number rendering), `ApiTypes` (src/types/api.ts),
`ApiClient` (src/core/ApiClient.ts) and `ClientProperties` (lemmas).

Three details of the code that the model keeps:

- `ApiError.data` is the whole `{status, data}` record built at
  src/core/ApiClient.ts:92, 96, 106 and 109. It is not the bare issues array,
  body or message.
- A base URL ending in `//` keeps one slash (`BaseUrlExamples`).
- A configured timeout of 0 or less is kept, because `??` replaces only an
  absent value (`TimeoutExamples`).

## Model

| member | source | states |
|---|---|---|
| `ApiClient.NormaliseBaseUrl` | src/core/ApiClient.ts:27 | The result is a prefix of the input and is at most one character shorter. It is shorter exactly when the input ends with `/`. |
| `ApiClient.NewClient` | src/core/ApiClient.ts:26-30 | The client holds the normalised base URL and the key unchanged. Its timeout is the configured one when present and 3000 when absent. |
| `ApiClient.Url` | src/core/ApiClient.ts:71 | The URL is the base URL followed by the endpoint, with nothing inserted or dropped. |
| `ApiClient.Headers` | src/core/ApiClient.ts:72-75 | There are exactly two headers. The first is `Authorization`, whose value is `Bearer ` followed by the API key. The second is `Content-Type: application/json`. |
| `ApiClient.RequestBody` | src/core/ApiClient.ts:84 | A body is sent if and only if the argument is present and truthy. When sent, it is that argument. |
| `Json.In` | src/core/ApiClient.ts:91-95 | `key in v` answers if and only if `v` is an array or object. The answer is true exactly when `v` is an object holding `key`. Otherwise it throws a TypeError whose message names the key and the value. |
| `ApiClient.PrepareRequest` | src/core/ApiClient.ts:79-86 | For every verb and endpoint, `fetch` gets that verb, the URL from `Url`, the headers from `Headers`, the body from `RequestBody`, and the delay passed to `setTimeout` for the abort is the client's timeout. |
| `Json.Truthy` | src/core/ApiClient.ts:84 | A JSON value is falsy exactly when it is `null`, `false`, `0` or the empty string. |
| `Json.InTypeErrorMessage` | src/core/ApiClient.ts:91-95 | The TypeError message starts with the fixed V8 prefix, then names the probed key, and ends with the string form of the value probed. |
| `Json.PrimitiveToString` | src/core/ApiClient.ts:91-95 | `null` is written `null`, booleans `true` or `false`, a string as itself, and a number as its `IntToDecimal` rendering, which starts with `-` exactly when it is negative. |
| `Json.IntToDecimal` | src/core/ApiClient.ts:91-95 | An integer's rendering starts with `-` exactly when it is negative, and all its other characters are digits. |
| `Json.IntDecimalRoundTrip` | src/core/ApiClient.ts:91-95 | Reading the rendering of any integer back, sign included, gives that integer. |
| `ApiClient.Classify` | src/core/ApiClient.ts:89-99 | There are exactly four outcomes, in the source's priority order. A TypeError comes when a probe hits a non-object. An issues-bearing `error` gives status 400 with the issues, whatever the real status or `data`. A missing `data` gives the real status with the whole body. Otherwise it returns the real status with `data` unchanged. |
| `ApiClient.Catch` | src/core/ApiClient.ts:100-110 | An ApiError passes through unchanged. Any other Error becomes status 500 carrying its message. Anything else becomes status 500 carrying "Unknown error occurred". |
| `ApiClient.Rejection` | src/core/ApiClient.ts:100-109 | A rejected round trip reaches the catch block as an Error with its message exactly when it has one, and never as an ApiError. |
| `ApiClient.Request` | src/core/ApiClient.ts:66-111 | An error's record always carries the error's own status. That status is 400, 500 or the status the service sent. A success carries the status the service sent. |
| `ApiClient.MapStatus` | src/core/ApiClient.ts:39-63 | The result is something other than VALID if and only if the code is one of 400, 401, 402, 404, 410, 429 or 500. |
| `ApiClient.ValidateLicense` | src/core/ApiClient.ts:37-64 | A failed request fails validation with the same ApiError. Otherwise the license is the response's `data` unchanged and the status is mapped from the status code. |
| `ApiTypes.Payload.ToJson` | src/types/api.ts:52-59 | The payload is an object with `license` and `application`, plus `hwid` exactly when it is given, and no other property. |
| `Json.NatToDecimal` | src/core/ApiClient.ts:105-106 | A number inside a TypeError message is rendered as a non-empty run of digits with no leading zero. |
| `Json.DecimalRoundTrip` | src/core/ApiClient.ts:105-106 | Reading that rendering back gives the number. |
| `ClientProperties.LookupFindsRow` | src/core/ApiClient.ts:39-60 | In a status table whose codes are distinct, the row for a code decides its status wherever the row stands, so the order of the tests does not matter. |
| `ClientProperties.LookupMissingRow` | src/core/ApiClient.ts:63 | A code that appears in no row is VALID. |
| `ClientProperties.StatusTableDistinct` | src/core/ApiClient.ts:39-60 | The seven listed codes are pairwise distinct. |
| `ClientProperties.MapStatusMatchesTable` | src/core/ApiClient.ts:39-63 | For every integer code, the chain of tests gives the same status as the table. 400 and 404 map to NOT_FOUND, 401 to INVALID, 402 and 410 to EXPIRED, 429 to LIMIT_REACHED, 500 to INTERNAL_SERVER_ERROR and everything else to VALID. |
| `ClientProperties.IssuesTakePriority` | src/core/ApiClient.ts:91-93 | A body whose `error` holds `issues` gives ApiError status 400 carrying those issues. This holds at every HTTP status, even when `data` is present. |
| `ClientProperties.MissingDataKeepsStatus` | src/core/ApiClient.ts:95-97 | An object with no issues and no `data` gives an ApiError with the real status carrying the whole body. |
| `ClientProperties.DataPassesThrough` | src/core/ApiClient.ts:99 | An object with `data` and no issues succeeds with the real status and `data` unchanged. |
| `ClientProperties.NonObjectBodyIs500` | src/core/ApiClient.ts:105-106 | A body that is `null` or a primitive, or whose `error` is, reaches none of the three guards. It gives status 500 carrying the TypeError's message. |
| `ClientProperties.RejectionIs500` | src/core/ApiClient.ts:100-109 | A rejected round trip (network error, timeout abort, undecodable body) gives status 500. It carries the error's message, or "Unknown error occurred" when there is none. |
| `ClientProperties.ValidationRequest` | src/core/ApiClient.ts:38-85 | Validation sends a POST of the payload to the base URL followed by `/api/client`, with both headers, and with the client's timeout as the delay passed to `setTimeout` for the abort. |
| `ClientProperties.LicensePassesThrough` | src/core/ApiClient.ts:38-63 | For every status and every license value, a body `{data: L}` yields license `L` unchanged, with the status from the table. |
| `ClientProperties.ValidationFailureFails` | src/core/ApiClient.ts:91-93 | A validation-failure envelope fails validation with status 400 and its issues, at any status. |
| `ClientProperties.BaseUrlExamples` | src/core/ApiClient.ts:27 | `https://api.example.com/` becomes `https://api.example.com`, and the validation URL becomes `https://api.example.com/api/client`. `x//` becomes `x/`, and `x` is unchanged. |
| `ClientProperties.TimeoutExamples` | src/core/ApiClient.ts:29 | An absent timeout becomes 3000, and a timeout of 0 is kept. |
| `ClientProperties.UnclassifiedExample` | src/core/ApiClient.ts:95-97 | `{"foo": "bar"}` at status 403 gives ApiError status 403 carrying that body. |
| `ClientProperties.PrimitiveBodyExample` | src/core/ApiClient.ts:91 | A `null` body gives status 500 carrying "Cannot use 'in' operator to search for 'error' in null". |

## Left out

- `fetch`, `AbortController`, `setTimeout` and `clearTimeout` (src/core/ApiClient.ts:78-88) are network I/O and timers. The round trip is the `send` parameter. The timeout appears only as the request's `abortAfterMs`, the delay passed to `setTimeout`, and an abort is a rejected round trip. Node replaces a delay below 1 or above 2147483647 by 1 ms, so a kept timeout of 0, a negative one or one above about 24.8 days aborts almost at once; the model does not capture this clamp. The timer is cleared as soon as `fetch` resolves with the headers (src/core/ApiClient.ts:88), so the reading of the body by `response.json()` (line 89) is never cut short by the timeout; the model folds fetch and decoding into the one `send`, so it does not show this.
- `JSON.stringify` and `response.json()` (src/core/ApiClient.ts:16, 84, 89) are the runtime's encoder and decoder. Bodies are decoded `Json` values, and a decoding failure is a rejected round trip with a message.
- Fractional JSON numbers are not modelled: `Json.Num` holds an integer.
- Json.IntToDecimal: an integer of magnitude above 2^53 is written with all its digits, which can differ from JavaScript's text. `response.json()` (src/core/ApiClient.ts:89) decodes numbers as doubles, and `String` writes the shortest digits that read back to the same double, padded with zeros: a body `18446744073709551616` decodes to 2^64 and is written `18446744073709552000`. From 10^21 on `String` uses exponent form (`1e+21`, `-1e+21`). Integers that no double holds, such as 9007199254740993, never come out of the decoder, yet they are `Json.Num` values here. This changes only the text of the TypeError message for a bare-number body or `error` field, never its status or kind.
- Json.PrimitiveToString: a number is written through `Json.IntToDecimal`, so it has the same gap above 2^53 in magnitude.
- Json.NatToDecimal: it writes every digit of a natural number, so above 2^53 it has the same gap as `Json.IntToDecimal`. Likewise `ApiConfig.timeout` is an integer, while the source's `timeout` may be a fractional number.
- The `ApiError` message and `name` (src/core/ApiClient.ts:16-17) are presentation text produced by serialisation.
- The exact wording of a TypeError message belongs to the JavaScript engine. The model uses V8's wording.
- `Json.In` models `in` only for the three property names the client probes (`error`, `issues`, `data`). None of them is inherited from `Object.prototype` or `Array.prototype`.
- The `as T` cast (src/core/ApiClient.ts:99) checks nothing. The license is whatever JSON value `data` holds, with no check of the `License` shape (src/types/api.ts:39-50).
- `async`/`await` is not modelled. Each call is a function of the client, its arguments and the round trip's outcome. So two calls with the same inputs give the same result, by construction, with no client state in between.
- `ApiResponse<T>` (src/types/api.ts:1-4) is `ApiTypes.ApiResponse`, the `{status, data}` record every `ApiError` carries (src/core/ApiClient.ts:92, 96, 106, 109), with `data` a JSON value. `ZodResponse` and `License` (src/types/api.ts:6-16, 39-50) carry no behaviour; they appear only as the `Json` shapes the guards test.
