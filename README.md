# Fetch interceptor with single-flight token refresh — Dafny model

This project models `apiFetch`, the frontend fetch wrapper of a small diagnostic
harness. It exists as two near-identical files, `fe/src/interceptor.ts` and its
JavaScript twin `fe/src/interceptor.js`. One model covers both, parametrised by
`Request.Variant` (`TypeScript` | `JavaScript`). The twins differ in two places,
and the model captures both:

- the JavaScript twin also sets `Access-Control-Allow-Origin: *` when a token is stored;
- after a successful refresh, the TypeScript twin reads the token again for the
  retry and for `processQueue`, while the JavaScript twin reuses the token it read
  before the first request.

What `apiFetch` does, and where the model has it:

- **Request preparation** (`Request`): the outgoing headers are the caller's headers.
  When a token is stored, `Authorization: Bearer <token>` is set over them.
  The URL is the base URL followed by the path. The verb helpers `get`, `post`, `put`,
  `patch` and `delete` build the options record. JSON encoding is the parameter
  `stringify`.
- **Refresh exclusion** (`Exclusion`): `_shouldProcessRequest` rejects a path that
  equals an entry of the exact list or contains an entry of the substring list.
  `Http.Includes` models JavaScript's `String.prototype.includes`.
- **Response handling** (`Http`, `Outcome`): the body is read as JSON exactly when
  the Content-Type contains `application/json`. A non-ok response outside the
  refresh path becomes `FetchError{status, body-or-null}`. A non-ok retry throws the
  raw response. A waiter's replay parses the body without checking `ok`.
- **Refresh coordination** (`Refresh`): the module-level flag `isTokenRefreshing`
  and the FIFO `failedRequestsQueue` are the fields of class `Refresh.Interceptor`.
  The model has two events. `Receive` handles the first response of a request.
  `RefreshSettled` handles the end of the refresh, given its result and the token
  store at that moment. Each method's contract equates the new state with a pure
  transition function (`OnResponse`, `OnRefreshSettled`) of the old state. The
  fetches of the retry and of a waiter's replay are not events: they are modelled by
  the functions `RetryOutcome` and `ReplayOutcome` of the response they get back,
  and `CallerOutcome` and `WaiterOutcome` settle each call from its continuation or
  signal. The lemmas prove the coordination properties about those functions.
  Exactly one of N concurrent eligible 401s starts a refresh. The other N − 1 are
  queued in arrival order. Each of them is signalled exactly once with the outcome of
  that refresh. The state is idle again afterwards.
- **Test cases** (`Scenarios`): the test cases of `fe/src/__tests__/interceptor.spec.ts`,
  plus two boundary cases of the code, stated as lemmas.

Environment inputs are parameters of the model:

- the token store (`localStorage`) is a `map<string, string>`;
- the base URL (`import.meta.env.VITE_SERVER_URL`) is a string parameter;
- a response is a record: `ok`, `status`, the Content-Type header, the result of
  `text()`, and the result of `json()` (None when it throws);
- the refresh (`requestAccessToken`) is the event `RefreshSucceeded | RefreshFailed(error)`.

Behaviours of the code that the model keeps as written:

- A token that is stored but empty adds no header, because the code tests truthiness.
- When the caller's headers are a plain record, a `Content-Type` key of the caller
  overrides `application/json` in `post`, `put` and `patch`.
- A non-ok retry after a refresh throws the raw response, not a Fetch error.
- A queued waiter replays its original options, with its pre-refresh Authorization
  header, in both twins. Its replay result is returned even when not ok.
- A refresh without a stored token sends the literal header `Bearer null`
  (TypeScript: no token after the refresh; JavaScript: none before the request).

## Model

| member | source | states |
|---|---|---|
| `Http.IncludesIff` | fe/src/interceptor.ts:46 | `includes(fragment)` holds exactly when the fragment occurs at some index of the string |
| `Http.Includes` | fe/src/interceptor.ts:46 | `s.includes(fragment)`, scanning from the left; its meaning is proved by `Http.IncludesIff` |
| `Http.ParseKind` | fe/src/interceptor.ts:45-46 | the choice of `_parseResponseBody` between `json()` and `text()`, a missing header read as ''; characterised by `Http.ParseKindIsJsonIffMediaType` |
| `Http.ParseResponseBody` | fe/src/interceptor.ts:44-51 | `_parseResponseBody`, None when `json()` throws; characterised by `Http.ParseResponseBodyChoice` |
| `Http.ParseKindIsJsonIffMediaType` | fe/src/interceptor.ts:44-51 | the body is read as JSON iff a Content-Type header is present and contains `application/json`; a missing header counts as '' |
| `Http.ParseResponseBodyChoice` | fe/src/interceptor.ts:44-51 | with the JSON media type the body is the parsed JSON or a parse failure; otherwise it is the text; a failure happens only on the JSON path with a body that does not parse |
| `Http.ParseKindDefaults` | fe/src/__tests__/interceptor.spec.ts:126-153 | no header and `text/plain` select text; `application/json`, with or without parameters, selects JSON |
| `Exclusion.AnyEqual` | fe/src/interceptor.ts:71 | the exact-match `some` finds the path iff the path is an entry of the list |
| `Exclusion.AnyIncluded` | fe/src/interceptor.ts:72 | the substring `some` holds iff some entry is included in the path |
| `Exclusion.ShouldProcessRequest` | fe/src/interceptor.ts:70-74 | a path is eligible iff it is no entry of the exact list and no entry of the substring list is included in it |
| `Exclusion.ShouldProcessRequestIff` | fe/src/interceptor.js:74-83 | a path is eligible iff no exact entry equals it and no substring entry occurs in it |
| `Exclusion.DefaultListsExcludeOnlyLogin` | fe/src/interceptor.ts:6-7 | with the configured lists every path except `/auth/login` is eligible |
| `Exclusion.EmptyFragmentExcludesAll` | fe/src/interceptor.js:79 | an empty substring entry would exclude every path |
| `Request.BuildHeaders` | fe/src/interceptor.ts:53-58 | with a non-empty token, Authorization is exactly `Bearer <token>` and overrides the caller's value; JavaScript adds `Access-Control-Allow-Origin: *`; no other caller header changes and no other key is added; without a token the headers are the caller's; the token test is the predicate `Request.HasToken` (ts:56) |
| `Request.AllowOriginOnlyInJavaScript` | fe/src/interceptor.js:52-59 | for a caller that sets neither header: in the JavaScript twin the CORS header is present iff the bearer header is, and its value is `*`; the TypeScript twin never adds it |
| `Request.Prepare` | fe/src/interceptor.ts:53-65 | the URL is the base URL followed by the unchanged path; the token is the one stored under `accessToken`; the headers are `BuildHeaders` of the caller's headers and that token; method, body and other options pass through |
| `Request.PreparedAuthorization` | fe/src/interceptor.ts:55-58 | a stored non-empty token gives Authorization `Bearer <token>`; a missing or empty token leaves the caller's headers exactly as they were |
| `Request.JsonHeaders` | fe/src/interceptor.ts:137-140 | for caller headers given as a plain record with normalised keys: Content-Type is `application/json` unless the caller set one; every caller header is kept |
| `Request.Get` | fe/src/interceptor.ts:130-133 | the method is forced to GET; headers, body and other options are the caller's |
| `Request.WithJsonBody` | fe/src/interceptor.ts:135-146 | the shared shape of the JSON helpers: the method is forced, the body is the JSON encoding of the data, and the JSON Content-Type applies unless overridden |
| `Request.Post` | fe/src/interceptor.ts:135-147 | method POST, body `JSON.stringify(data)`, default JSON Content-Type, other options kept |
| `Request.Put` | fe/src/interceptor.ts:149-161 | method PUT, body `JSON.stringify(data)`, default JSON Content-Type, other options kept |
| `Request.Patch` | fe/src/interceptor.ts:177-189 | method PATCH, body `JSON.stringify(data)`, default JSON Content-Type, other options kept |
| `Request.Delete` | fe/src/interceptor.ts:163-175 | method DELETE; body and JSON Content-Type only for truthy data; otherwise the caller's body and headers are kept |
| `Outcome.ReplayOutcome` | fe/src/interceptor.ts:100-103 | a replay settles exactly when its body, read by the Content-Type rule, parses, and then resolves with that body whatever the status; it never rejects |
| `Outcome.ReplayVersusFirstResponse` | fe/src/interceptor.ts:100-123 | for every response: ok with a parsing body, the replay ends as a first response would; not ok with a parsing body, the replay resolves where a first response rejects; a body that does not parse rejects a first response and leaves the replay unsettled |
| `Outcome.SettleResponse` | fe/src/interceptor.ts:110-123 | how a first response outside the refresh path settles; characterised by `Outcome.FetchErrorCarriesStatusAndBody` and `Outcome.OkResponseResolvesWithBody` |
| `Outcome.RetryOutcome` | fe/src/interceptor.ts:94-96 | how the retry after a refresh settles; characterised by `Outcome.RetryOutcomeSpec` |
| `Outcome.FetchErrorCarriesStatusAndBody` | fe/src/interceptor.ts:110-121 | a non-ok response rejects with `Fetch error`, the response's status, and a body that is null exactly when reading it failed |
| `Outcome.OkResponseResolvesWithBody` | fe/src/interceptor.ts:123 | an ok response resolves with its text or its JSON by Content-Type, and rejects only when its JSON does not parse |
| `Outcome.LoginUnauthorizedIsFetchError` | fe/src/interceptor.ts:76 | a 401 on `/auth/login` is not eligible and rejects as a Fetch error with status 401 |
| `Outcome.RetryOutcomeSpec` | fe/src/interceptor.ts:93-96 | the retry rejects with the raw response iff it is not ok, and otherwise settles as a first response would |
| `Outcome.ReplayIgnoresStatus` | fe/src/interceptor.js:110-118 | a non-ok replay with a text body resolves with that text, where a first response would reject |
| `Refresh.DeliveriesFanOut` | fe/src/interceptor.ts:27-36 | `processQueue` signals each waiter once in insertion order, all with `reject(error)` when there is an error, otherwise all with `resolve(token)` |
| `Refresh.Deliveries` | fe/src/interceptor.ts:27-36 | the calls `processQueue` makes, each given by `Refresh.SignalFor` (ts:29-33); characterised by `Refresh.DeliveriesFanOut` |
| `Refresh.OnResponse` | fe/src/interceptor.ts:76-107 | the state change and step of a first response, the refresh path being chosen by the predicate `Outcome.Eligible401` (ts:76) and a waiter being `originalRequest`, `Refresh.WaiterOf` (ts:77, js:88); characterised by `Refresh.IneligibleResponseKeepsState` and `Refresh.Eligible401NeverSettlesAtOnce` |
| `Refresh.OnRefreshSettled` | fe/src/interceptor.ts:79-93 | the state change, signals and continuation when the refresh settles; characterised by `Refresh.RefreshSettledDrainsQueue` |
| `Refresh.RefreshedToken` | fe/src/interceptor.ts:84 | the token handed to `processQueue` after a good refresh (TypeScript re-reads the store, JavaScript at fe/src/interceptor.js:95 reuses the pre-request token); characterised by `Refresh.TypeScriptRetryRereadsToken` and `Refresh.JavaScriptRetryReusesPreRequestToken` |
| `Refresh.RetryOptions` | fe/src/interceptor.ts:91-92 | the retry's options, the original ones with the bearer header set again (fe/src/interceptor.js:103 for the twin); characterised by the same two lemmas |
| `Refresh.Interceptor.constructor` | fe/src/interceptor.ts:24-25 | the flag starts false and the queue empty |
| `Refresh.Interceptor.ProcessQueue` | fe/src/interceptor.ts:27-36 | its loop makes exactly the signals of `Deliveries` on the old queue; afterwards the queue is empty and the flag unchanged |
| `Refresh.Interceptor.Receive` | fe/src/interceptor.ts:76-107 | the new flag, queue and step are those of `OnResponse`: not refreshing, an eligible 401 sets the flag; refreshing, it appends one waiter; otherwise nothing changes |
| `Refresh.Interceptor.RefreshSettled` | fe/src/interceptor.ts:79-93 | the new state, signals and continuation are those of `OnRefreshSettled`: flag cleared, queue drained, then one retry or a rethrow |
| `Refresh.RefreshSettledDrainsQueue` | fe/src/interceptor.ts:79-90 | after the refresh settles the state is idle; every queued waiter is signalled in order; on failure all are rejected with the error and the caller rethrows it; on success all are resolved and the caller retries once |
| `Refresh.QueueOnlyWhileRefreshingKept` | fe/src/interceptor.ts:79-106 | both events keep the queue empty whenever no refresh is in flight: waiters join only while refreshing and the settling refresh drains them |
| `Refresh.FailedRefreshRejectsEveryone` | fe/src/interceptor.ts:86-89 | after a failed refresh the refreshing caller (through the rethrow, `CallerOutcome`) and every queued waiter (through `reject`, `WaiterOutcome`) reject with the refresh error |
| `Refresh.SucceededRefreshReplaysEveryone` | fe/src/interceptor.ts:83-105 | after a successful refresh the refreshing caller settles as its retry does, and every queued waiter as its replay does |
| `Refresh.IneligibleResponseKeepsState` | fe/src/interceptor.ts:110-123 | a response outside the refresh path leaves flag and queue unchanged and settles the call |
| `Refresh.Eligible401NeverSettlesAtOnce` | fe/src/interceptor.ts:76-107 | an eligible 401 starts a refresh iff none is in flight, and then leaves the queue unchanged; otherwise it appends exactly one waiter and starts no refresh |
| `Refresh.WhileRefreshingAllAreQueued` | fe/src/interceptor.ts:97-106 | while a refresh is in flight, every eligible 401 is queued in arrival order and none starts a refresh |
| `Refresh.ExactlyOneRefreshStarts` | fe/src/interceptor.ts:79-106 | of N concurrent eligible 401s with no refresh in flight, the first starts the refresh and the other N − 1 are queued in order |
| `Refresh.OneRefreshServesEveryWaiter` | fe/src/interceptor.ts:79-106 | from idle, N concurrent eligible 401s and one settled refresh: each of the N − 1 others is signalled exactly once, in order, with the refresh's outcome, and the state is idle again |
| `Refresh.TypeScriptRetryRereadsToken` | fe/src/interceptor.ts:91-93 | the TypeScript retry carries `Bearer <token read after the refresh>`, or `Bearer null` when none is stored; nothing else in the options changes |
| `Refresh.JavaScriptRetryReusesPreRequestToken` | fe/src/interceptor.js:90-105 | the JavaScript retry and the waiters use the token read before the request, whatever the refresh stored; with a token the retry re-sends the original options unchanged |
| `Refresh.ReplayReusesOriginalHeaders` | fe/src/interceptor.ts:98-103 | a queued request is replayed to the same URL with its original pre-refresh Authorization header |
| `Scenarios.GetWithStoredToken` | fe/src/__tests__/interceptor.spec.ts:38-55 | GET with `test-token-123` goes to `http://localhost:3000/api/test` with `Bearer test-token-123` and resolves to the JSON body; the state stays idle |
| `Scenarios.GetWithoutToken` | fe/src/__tests__/interceptor.spec.ts:57-71 | without a stored token no Authorization header is sent |
| `Scenarios.PostEncodesBody` | fe/src/__tests__/interceptor.spec.ts:75-90 | POST sends method POST, the encoded payload, and the JSON Content-Type |
| `Scenarios.DeleteWithDataHasBody` | fe/src/__tests__/interceptor.spec.ts:92-107 | DELETE with data sends method DELETE and the encoded data |
| `Scenarios.DeleteWithoutDataHasNoBody` | fe/src/interceptor.ts:163-175 | DELETE with the default null data sends no body and no Content-Type |
| `Scenarios.BadRequestIsFetchError` | fe/src/__tests__/interceptor.spec.ts:111-122 | a 400 with a JSON body rejects with `Fetch error`, status 400 and that body |
| `Scenarios.PlainTextResolvesToText` | fe/src/__tests__/interceptor.spec.ts:141-153 | a `text/plain` response resolves to `Hello World` |
| `Scenarios.LoginUnauthorizedDoesNotRefresh` | fe/src/interceptor.ts:70-76 | a 401 from `/auth/login` starts no refresh and rejects at once with status 401 |

## Left out

- `fetch`, `localStorage` and `import.meta.env` are I/O and environment. They are
  parameters: the response record, the token store map and the base URL string.
  A base URL that is undefined, which turns into the text `undefined`, is not modelled.
- Transport failures are not modelled. A `fetch` that rejects before any response
  propagates unchanged through the `catch (error) { throw error; }` block.
- `requestAccessToken` is a logging stub. The model reduces it to its result, success
  or failure, plus the token store as it stands when the result arrives.
- Promise scheduling and interleaving are not modelled. The suspension points are
  sequential events. Any order of arrivals can be fed to `Refresh.Feed`, but
  concurrent microtasks are not modelled.
- Refresh.Interceptor.RefreshSettled: the contract gives only the final state:
  flag false, queue empty. The order (flag cleared, then `processQueue`) appears only
  in the method body. `ProcessQueue` leaves the flag as it is, and no waiter reads
  the flag while the queue drains.
- Outcome.ReplayOutcome: a replay whose body fails to parse gives None. That means
  the waiter's promise never settles: the error stays inside the waiter's own async
  callback and never reaches `reject`. A `fetch` rejection inside the replay is not
  modelled.
- `JSON.stringify` is the function parameter `stringify`. `response.json()` and
  `response.text()` are fields of the response record. `text()` never fails here.
  Post, put and patch with `undefined` data, whose encoding is `undefined`, are not
  modelled.
- The model keeps apart a JSON body that parses to `null` (`Some(JsonBody(JNull))`)
  and a failed parse (`None`). The source makes both `null` in a Fetch error.
- JSON numbers are integers, so `NaN` and fractional values are not modelled. They
  matter only for the truthiness test in `delete`.
- The `Headers` class is reduced to a map with normalised header names. Its
  case-insensitive keys are not modelled. Its identity is not modelled either:
  `config` and `originalRequest.options` share one `Headers` object, and the retry
  mutates it in place. A `fetch` snapshots its headers, so the model carries them
  as values.
- Request.JsonHeaders and Request.Delete: caller headers are taken to be a plain
  record with normalised keys. The helpers spread `options.headers` into an object
  literal, and the model does not follow that spread for the other shapes that
  `HeadersInit` allows: a `Headers` instance has no own enumerable properties, so all
  its entries are lost (in `delete` also for falsy data); an array of pairs becomes
  headers named `0`, `1`, …; a lowercase `content-type` key does not override, and
  `new Headers` joins both values into `application/json, text/plain`. `get` is not
  affected, since it hands the caller's headers to `new Headers` unchanged.
- Refresh errors are taken to be truthy. A falsy thrown value, such as `throw null`,
  would make `processQueue` resolve the waiters. That case is not modelled.
- `ok` and `status` are independent fields, as in the tests' mocked responses.
- The backend (NestJS controllers and modules), `fe/src/main.js` (Vue bootstrap) and
  the TypeScript generic casts are not part of this model.
