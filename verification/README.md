# pylend core, modelled in Dafny

pylend is a Python client for the LendingClub investor REST API. This project models
the two layers of it that hold decision logic, as pure Dafny functions:

- **The connection layer** (`Connection`, `LendingClub_Connection`). It builds the request
  URI and the authenticated headers. A throttle decides whether to sleep before sending and
  for how long. The throttle timestamp is recorded once the response arrives. The HTTP
  status code is then classified: the body is returned, or one of four typed errors is raised.
  A connection is a small state record (`Http.ConnState`). One request is a pure step
  (`Http.Request`): it takes the two clock readings and the response as inputs. It returns
  the new state, the throttle decision, the request handed to the transport, and the outcome.
  `Http.Run` threads the state through a sequence of calls. Three lemmas state what such a
  session keeps and where its timestamp comes from.
- **The response-normalisation layer** (`Account`, `Loans`). It checks each payload for the
  reserved `errors` key. It remaps transfer frequencies through a five-entry table. It
  converts designated date fields with a date parser. It rebuilds the list under one key
  element by element. It also builds the `accounts/<id>/<resource>` paths and falls back to
  the empty list when a list key is absent.

Decoded JSON is the datatype `Json.Value`. `Time` is the extra variant that a converted date
field holds. Python's operators on these values (`in`, `[]`, `[]=`, iteration, list
comprehension, dictionary lookup) are modelled in `Builtins`. Each one raises where
Python raises: `KeyError` for a missing key, `TypeError` for a value of the wrong kind. There
is one exception: iterating an object raises `TypeError` in the model, where Python iterates
its keys (see `Builtins.Iterate` under "Left out"). The
exceptions of `pylend/exceptions.py` become the datatype `Errors.Error`. A raising operation
returns `Err`.

Parameters stand in for things outside the model:

- clock readings: `checkedAt` before sending, `answeredAt` after the response, both
  microseconds since `datetime.min`;
- the HTTP response: `Http.HttpResponse`, a status code and a decoded body;
- the date parser `arrow.get`: `Builtins.Parser`;
- the connection object that a facade calls: `Resource.Getter`;
- the converter `pylend._convert_datetimes` that `account.py` calls but no file of the
  package defines: `AccountApi.Converter`.

Files: `wrappers.dfy`, `json.dfy`, `errors.dfy`, `builtins.dfy`, `format.dfy` (Python's
`str.format` for `{0}`/`{1}` templates), `http.dfy` (logic shared by both connection
classes), `connection.dfy`, `lendingclub_connection.dfy`, `resource.dfy` (the error-envelope
check shared by both facades), `account.dfy`, `loans.dfy`.

## Behaviour of the code worth knowing

The model follows the code in each case.

- **Throttle amount.** `_delay_if_necessary` sleeps for the elapsed time itself, not for the
  rest of `request_delay` (`pylend/connection.py:81-86`, `pylend/lendingclub_connection.py:46-51`).
  Its log line "Sleeping for {0} before sending request" reports that same elapsed time. A
  throttled request therefore departs twice the elapsed time after the previous response
  (`Http.SleepDoublesElapsed`). With the default one-second delay, a request made 0.1 s after
  the previous response sleeps 0.1 s and departs 0.2 s after that response
  (`Http.GapShorterThanDelay`). The timestamp is taken after the response arrives
  (`pylend/connection.py:57`), so the gap between two departures is that plus the earlier
  request's latency. No minimum gap between departures follows from the code, and none is
  claimed.
- **Negative elapsed time.** If the clock reads earlier than the recorded timestamp, the
  elapsed time is negative. It is below the delay, so `time.sleep` receives a negative
  argument and raises `ValueError`. In that case the request is not sent and the throttle
  timestamp does not move.
- **Error envelope.** The payload check tests only that the key `errors` is present
  (`pylend/account.py:98`, `pylend/loans.py:54`). An `errors` key holding null, an empty list
  or the empty string still raises (`Resource.EmptyErrorBlockFails`). The test is Python's
  `in`. So for a list payload it checks membership of the string `"errors"`, and for a
  string payload it checks for a substring. When the test holds, the block is read as
  `json_payload['errors']` for the log message before the exception is raised
  (`pylend/account.py:99-100`, `pylend/loans.py:55-56`). On a list or a string that read
  raises `TypeError`, so such a payload raises `TypeError`, not `ExecutionFailureException`.
- **Error detail.** `ExecutionFailureException` accepts an `errors` argument and stores it
  (`pylend/exceptions.py:12-13`). No raise site passes one: both payload checks log the
  block and raise the exception without arguments (`pylend/account.py:99-101`,
  `pylend/loans.py:55-57`), as do the status checks. `Errors.ExecutionFailure` therefore
  carries no payload.
- **Date conversion in `loans.py`.** `_convert_datetimes` reads every listed field
  (`pylend/loans.py:17-20`), so a missing field is a `KeyError`. It hands every value, null
  included, to the parser.
- **User agent.** `Connection` sends `pylend v0.1.0`. `LendingClub_Connection`, the class the
  package exports, sends `pylend v0.0.1`.
- **Tests.** The pending-transfer and owned-note tests index the result with `['transfers']`
  or `['myNotes']` (`pylend/tests/account_test.py:99`, `:109`, `:169`). But
  `pending_transfers` and `owned_notes` return the list under that key, not the payload. The
  model follows the code: they return the list.

## Model

| member | source | states |
|---|---|---|
| Http.BaseUriSpelledOut | pylend/connection.py:19 | The base URI, assembled from its scheme, host and path, is `https://api.lendingclub.com/api/investor/`. |
| Http.RequestUri | pylend/connection.py:48 | The request URI is the base `https://api.lendingclub.com/api/investor/` followed by the API version, a slash and the resource. |
| Http.Headers | pylend/connection.py:42-66 | A GET carries exactly Accept, Authorization and User-Agent; a POST carries those and Content-type. Accept and Content-type are `application/json`, Authorization is the raw key, and User-Agent is the connection's agent. |
| Format.Format2 | pylend/connection.py:48 | `str.format` on `{0}`/`{1}` templates. Text without braces is copied unchanged. Substituting each field by its own text gives the template back. |
| Format.LiteralPrefix | pylend/connection.py:48 | Brace-free text in front of any template is copied through unchanged, whatever follows it. |
| Format.FillTwo | pylend/account.py:104 | For brace-free literal `p` and `m`, the template `p{0}m{1}` becomes `p`, the first argument, `m`, the second argument, in that order. |
| Http.DelayIfNecessary | pylend/connection.py:80-86 | No sleep exactly when elapsed ≥ delay. Otherwise the sleep is the elapsed time itself, so it is strictly below the delay. A negative elapsed time is a `ValueError`. |
| Http.CheckForErrors | pylend/connection.py:88-111 | Each direction of the table holds: 200 and 400 pass; 401 and 403 are authorization failures; 404 is a missing resource; 500 is an execution failure; every other code is unexpected. |
| Http.Request | pylend/connection.py:36-61 | If the throttle raises, nothing is sent and the state is unchanged. Otherwise the request goes to the base URI with the given params and body. `lastRequest` becomes the post-response reading whatever the status. The result is the body exactly for 200/400, otherwise the classified error. |
| Http.SleepDoublesElapsed | pylend/connection.py:80-86 | When the throttle sleeps, the request departs twice the elapsed time after the previous response. |
| Http.GapShorterThanDelay | pylend/connection.py:81-86 | With a 1 s delay, a request 0.1 s after the previous response sleeps 0.1 s and departs 0.2 s after it. |
| Http.RunKeepsSettings | pylend/connection.py:20-61 | Over any sequence of calls, the credential, user agent and request delay set at construction never change. |
| Http.RunTimestampFromSomeCall | pylend/connection.py:57 | Over any sequence of calls, the throttle timestamp is the initial value or the post-response reading of some call in the sequence. |
| Http.RunThrottleNeverRaises | pylend/connection.py:36-86 | If the clock never runs backwards, every call of a sequence passes the throttle. Each call meets the timestamp the calls before it left, and its reading is no earlier than that timestamp, so no call raises `ValueError`. |
| Http.RunTracksLastResponse | pylend/connection.py:36-86 | If the clock never runs backwards, the timestamp after a non-empty sequence of calls is the last call's post-response reading, whatever the status codes. |
| Connection.New | pylend/connection.py:21-26 | `ValueError` exactly when the key is missing. Otherwise the key, the v0.1.0 user agent and the delay are stored, and the timestamp starts at `datetime.min`. |
| Connection.Get | pylend/connection.py:29-34 | A sent GET carries exactly Accept=application/json, Authorization=the raw key and User-Agent. It has no body and goes to the base URI with version and resource. |
| Connection.Post | pylend/connection.py:63-78 | A sent POST carries the same three headers plus Content-type=application/json, and the given body. |
| Connection.StatusOutcomes | pylend/connection.py:57-61 | For GET or POST past the throttle, each status maps to its outcome. Even a failed request moves the timestamp to the post-response reading. |
| Connection.FirstRequestNeverSleeps | pylend/connection.py:80-83 | A new connection's timestamp is `datetime.min`, so its first request does not sleep once the delay is no longer than the time since `datetime.min`. |
| LendingClubConnection.New | pylend/lendingclub_connection.py:20-26 | `ValueError` exactly when the key is missing. Otherwise the key, the v0.0.1 user agent and the delay are stored, and the timestamp starts at `datetime.min`. |
| LendingClubConnection.Get | pylend/lendingclub_connection.py:28-43 | The URI is the base followed by version and resource. Query params are handed over untouched, with exactly the three headers. The timestamp moves to the post-response reading. If the throttle raises, nothing is sent. |
| LendingClubConnection.StatusOutcomes | pylend/lendingclub_connection.py:53-76 | On a new connection with the default delay: no sleep; 200 and 400 return the body; 401 and 403 raise an authorization error; 404 a missing resource; 500 an execution failure; any other code an unexpected status. |
| Resource.CheckForErrors | pylend/account.py:97-101 | The result is `ExecutionFailure` exactly when the payload is an object holding the key `errors`; a passing payload is returned unchanged. A list containing `"errors"` or a string containing it as a substring raises `TypeError` when the block is read for the log message. Any other non-container raises `TypeError` in the `in` test. |
| Resource.EmptyErrorBlockFails | pylend/loans.py:53-57 | An `errors` key fails the check even when its value is null, empty or the empty string. |
| Builtins.MapEach | pylend/account.py:45-46 | The comprehension succeeds exactly when every element normalises. The result then has the same length and order, element i being the normaliser's result on element i. Otherwise the error is that of the first failing element. |
| AccountApi.FrequencyTable | pylend/account.py:19-26 | The table maps exactly five strings, for example "One Time"→LOAD_ONCE and "1st and 16th of each Month"→LOAD_ON_DAY_1_AND_16. Its tokens are distinct and none is itself a key. |
| AccountApi.RemapFrequency | pylend/account.py:33-34 | A frequency remaps exactly when it is a listed string, and then to the table's token for that string. An unlisted string raises a `KeyError` naming it. The result is never the input. |
| AccountApi.NormalizeTransfer | pylend/account.py:29-35 | A converter failure propagates. On success, only `frequency` differs from the converted record, and it holds the table's token for the converted frequency. A missing frequency is a `KeyError`. |
| AccountApi.NormalizeTransferFrame | pylend/account.py:29-35 | For a converter that touches only the two date fields, normalisation succeeds exactly when the original frequency is listed. Then only the date fields and `frequency` change. An unlisted frequency raises a `KeyError`. |
| AccountApi.LenientConvert | pylend/tests/account_test.py:91-99 | The converter behaviour the tests rely on: it changes only the listed fields and keeps nulls null. For fields listed once, every present non-null field parses and holds its parsed instant. It succeeds on any object when parsing cannot fail. |
| AccountApi.NullEndDateStaysNull | pylend/tests/account_test.py:91-111 | With that converter, a transfer whose endDate is null keeps it null, and "One Time" becomes LOAD_ONCE. A present non-null transferDate holds its parsed instant. |
| AccountApi.NormalizeReceivedJson | pylend/account.py:44-47 | Only the given key changes. Its new list has the same length and order as the old one, with element i the normaliser applied to old element i. A missing key is a `KeyError`; a non-object payload is a `TypeError`. |
| AccountApi.NormalizedListOrEmpty | pylend/account.py:73-90 | If the key is absent, the result is the empty list. Otherwise it is the list normalised element by element, failing exactly when some element fails. |
| AccountApi.New | pylend/account.py:56-65 | `ValueError` exactly when the connection or the account id is missing; the connection is checked first. |
| AccountApi.ResourcePath | pylend/account.py:104 | The path is `accounts/<id>/<resource>`. |
| AccountApi.AccountResourceGet | pylend/account.py:103-110 | Fetches `accounts/<id>/<resource>` with version v1 and no query. A connection error propagates. An object with `errors` raises `ExecutionFailure`; any other object is returned unchanged. A list containing `"errors"` raises `TypeError`. |
| AccountApi.AccountSummary | pylend/account.py:67-68 | Fetches `accounts/<id>/summary`: an error block raises, a clean payload is returned as is. |
| AccountApi.AvailableCash | pylend/account.py:70-71 | Fetches `accounts/<id>/availablecash`: an error block raises, a clean payload is returned as is. |
| AccountApi.PendingTransfers | pylend/account.py:73-79 | From `accounts/<id>/funds/pending`: an error block raises. Without `transfers` the result is the empty list. Otherwise it is the transfers, each normalised, in order. |
| AccountApi.NotesResource | pylend/account.py:81-84 | The notes resource is `detailednotes` exactly when detailed information is requested, and `notes` otherwise. |
| AccountApi.OwnedNotes | pylend/account.py:81-90 | From `accounts/<id>/notes` or `.../detailednotes`: an error block raises. Without `myNotes` the result is the empty list. Otherwise it is the notes, each converted over the four note date fields, in order. |
| AccountApi.Portfolios | pylend/account.py:92-95 | From `accounts/<id>/portfolios`: an error block raises. The result is the value under `myPortfolios`, untouched, or the empty list. |
| AccountApi.NotesPaths | pylend/tests/account_test.py:171-178 | Detailed notes of an account come from `accounts/<id>/detailednotes`, plain notes from `accounts/<id>/notes`. |
| LoansApi.ConvertFields | pylend/loans.py:18-19 | The loop over the fields. On a non-object record with fields to convert it raises `TypeError`. On success every field was present, and the record keeps exactly its key set. |
| LoansApi.ConvertFieldsSpec | pylend/loans.py:17-20 | For distinct fields, the loop succeeds exactly when the record is an object holding every field with a parseable value. It then replaces exactly those fields by their parsed instants, and every other key keeps its value. |
| LoansApi.MissingFieldIsKeyError | pylend/loans.py:18-19 | When parsing cannot fail, the loop fails only on a missing field, with a `KeyError` naming it. |
| LoansApi.ConvertableFieldsDistinct | pylend/loans.py:5-14 | The seven listed-loan date fields are distinct. |
| LoansApi.ConvertDatetimes | pylend/loans.py:17-20 | Succeeds exactly when the loan is an object whose seven date fields are all present and parse. It then replaces exactly those seven and nothing else. A missing field is a `KeyError`; a non-object loan is a `TypeError`. |
| LoansApi.NormalizeLoanFormat | pylend/loans.py:23-27 | On success, `asOfDate` holds its parsed instant. `loans` is rebuilt with the same length and order, element i being loan i converted. Every other key is unchanged. Given a parseable `asOfDate` and a list of loans, it succeeds exactly when every loan converts. |
| LoansApi.New | pylend/loans.py:34-38 | `ValueError` exactly when the connection is missing. |
| LoansApi.GetListedLoans | pylend/loans.py:40-51 | Requests `loans/listing`, version v1, with query params exactly `{showAll: get_all_loans}` (default false). A connection error propagates. An error block in an object raises `ExecutionFailure`; a list containing `"errors"` raises `TypeError`. A clean payload is normalised. |
| LoansApi.ErrorsCheckedFirst | pylend/loans.py:49-50 | If the listing carries an error block, the result is `ExecutionFailure` whatever the parser: no conversion is attempted. |
| LoansApi.ListedLoansEndToEnd | pylend/tests/loans_test.py:146-179 | For a clean listing whose dates all parse: every declared date field of every loan, and `asOfDate`, is the parsed original. The list keeps its length and every other field of every loan is unchanged. |

## Left out

- HTTP transport (`requests.get`, `requests.post`) and `response.json()`: the response is an input that already holds a decoded body. A transport error or an undecodable body is not modelled.
- `json.dumps` of a POST body: the body is recorded on the request as a value, not as serialised text.
- Clock and sleep: `datetime.now()` readings are inputs, and the sleep is returned rather than performed. Times are whole microseconds, not floats.
- Logging: it has no effect on behaviour.
- `arrow.get`: it is the uninterpreted parameter `Builtins.Parser`. Its date format, and what it does with null or numbers, is left to the parameter.
- `pylend._convert_datetimes` (called from `pylend/account.py:30` and `:39`) is not part of this model. The `pylend` package namespace has no such name: `pylend/__init__.py:1-5` exports only the connection class and the exceptions, and the one `_convert_datetimes` in the package is the one-argument function private to `pylend/loans.py:17`. As written, those two calls therefore raise `AttributeError`. The model makes the converter the `AccountApi.Converter` parameter instead. `AccountApi.LenientConvert` is one converter with the behaviour the tests pin: it parses present non-null fields and keeps nulls.
- Numeric payload fields: amounts and rates are opaque `Json.Number` values that are only passed through.
- Builtins.Iterate: iterating an object (which Python does in key insertion order) is reported as `TypeError`, because a Dafny map records no order. This affects `AccountApi.NormalizeReceivedJson` and `LoansApi.NormalizeLoanFormat` only when an object, not a list, sits under the list key.
- Dictionary order: payload objects are maps, so key order is not modelled.
- In-place mutation: the source rewrites the payload dictionary it received, which its caller may still hold. The model returns a new value instead.
- `Format.Format2`: only the `{0}` and `{1}` replacement fields that the two templates use are modelled. Escaped braces (`{{`, `}}`), a lone `}` (which Python rejects) and format specifications are not. The contracts about it speak only of brace-free literal text, which both templates use.
- Argument types: the API key and the API version are strings. The account id is the text `str()` renders for it, and the connection object is its `get` function. Python accepts any non-`None` object for each of these.
- `pylend/exceptions.py` is mirrored by `Errors.Error` rather than modelled as code. `pylend/__init__.py`, `setup.py` and `pylend/tests/mock_connection.py` are packaging and test plumbing.
