# Request state and HTTP client of the portfolio template, in Dafny

This project models the request-state machinery of the portfolio template.
It has two cooperating parts:

- **The shared HTTP client** (`lib/axios.ts`, module `Axios` in `axios.dfy`).
  - The shape of an API error body (`ApiErrorResponse`).
  - The request interceptor: it attaches `Authorization: Bearer <token>` when local storage holds a truthy `"token"` and the request has a headers object.
  - The response interceptor. Resolved requests pass through unchanged. A rejection with status 401 removes `"token"` from local storage. Every rejection is rejected again, with only its `message` rewritten. The new message is the first truthy value among the body's `message`, the body's `error`, the error's own `message` and `"Unexpected error"`.
- **The request-state hook `useAxios`** (`hooks/useAxios.ts`, module `UseAxios` in `use_axios.dfy`).
  - A class `AxiosHook<T>` with the three slots `loading`, `error` and `data`.
  - `request` is split into its two atomic halves: `BeginRequest` and `Settle(outcome)`. `Request` composes them through the client.
  - `Reset` clears all three slots.

The hook's specification is a value `RequestState<T>` and a function `Step`.
`Step` applies one atomic `Action`: a request starts, a request settles, or the state is reset.
`Run` replays a trace of actions.
Every state-changing method is proved to move its state exactly as `Step` says.
The lemmas `RecordedErrorNeverEmpty`, `LoadingIffLatestStarted`, `DataKept`, `ErrorKept`, `LatestSuccessWins` and `LatestFailureWins` are proved for arbitrary traces. So they also cover overlapping requests on one hook and a request that settles after `reset`, taken as interleavings of atomic steps. `RequestCycle`, `ResetIdempotent` and `StaleDataBesideError` are each about one fixed trace.

`js.dfy` holds JavaScript truthiness and `||` on `string | undefined`. An empty string counts as absent, as in the source.
`wrappers.dfy` holds `Option`.

Three facts about the code that its doc comments leave open:

- A failure that follows a success leaves both `data` and `error` set (`StaleDataBesideError`).
- hooks/useAxios.ts:106 says `loading` is set to false "when it completes". With overlapping requests, the first one to settle clears `loading` while another request is still pending (`LoadingIffLatestStarted`: `loading` follows the latest action only).
- hooks/useAxios.ts:108 says `data` persists "until new request or reset". In the code a new request does not clear `data`; only a later success or `reset` replaces it (`DataKept`).

Through `api.request`, axios first copies the caller's config into a fresh one whose headers object is merged over the client's default headers. Only that copy reaches the request interceptor. So the caller's config is never changed, and the "no headers object" case of lib/axios.ts:81 does not arise through the client (`SentHeadersCarryToken`).

## Model

| member | source | states |
|---|---|---|
| `Axios.NormalizedMessage` | lib/axios.ts:121-128 | the normalised message is the body's `message` if truthy, else the body's `error` if truthy, else the error's own `message` if truthy, else "Unexpected error"; it is never empty |
| `Axios.NormalizeError` | lib/axios.ts:121-128 | the normalised error carries the normalised, non-empty message; name, code, status and response are preserved |
| `Axios.NormalizeErrorIdempotent` | lib/axios.ts:121-128 | normalising an already normalised error changes nothing |
| `Axios.Intercepted` | lib/axios.ts:107-132 | a resolved request passes through unchanged; a rejected one is always rejected again, with the normalised error |
| `Axios.StorageAfterRejection` | lib/axios.ts:110-118 | in a browser, a 401 removes exactly the "token" key; every other entry keeps its value; any other status, a missing response or a non-browser context leaves storage as it was |
| `Axios.AttachBearer` | lib/axios.ts:79-85 | with a truthy token and a headers object, `Authorization` becomes "Bearer " + token and every other header is unchanged; otherwise (no token, empty token, no headers object) the headers are returned untouched |
| `Axios.AttachBearerIdempotent` | lib/axios.ts:79-85 | running the request interceptor twice with the same storage gives the headers of one run |
| `Axios.MergedHeaders` | lib/axios.ts:58-61 | the headers object the interceptors see always exists: it holds every default header (Content-Type, Accept) and every header the caller gave, the caller's values overriding the defaults, and nothing else |
| `Axios.SentHeadersCarryToken` | lib/axios.ts:79-85 | through the client, a request always has a headers object with the defaults; in a browser with a truthy stored token it carries "Bearer " + token, and otherwise exactly the merged headers |
| `Axios.Api.InterceptRequest` | lib/axios.ts:76-88 | updates the config's headers in place to `AttachBearer` of the stored token (none outside a browser) and returns the same config; storage is not touched |
| `Axios.Api.InterceptResponse` | lib/axios.ts:107-132 | returns `Intercepted(outcome)`; storage changes only on a rejection, to `StorageAfterRejection` |
| `Axios.Api.Request` | lib/axios.ts:55-132 | copies the caller's config into a fresh one with merged headers and leaves the caller's config unchanged; the copy is sent with `SentHeaders`; then the given transport outcome and the response interceptor, with their effects on storage and result |
| `UseAxios.HookMessage` | hooks/useAxios.ts:142-149 | the hook's message is the body's `message` if truthy, else the body's `error`, else the error's `message`, else "Network request failed"; it is never empty |
| `UseAxios.HookMessageOfNormalized` | hooks/useAxios.ts:143-147 | for a rejection already normalised by the client, the hook records exactly the client's normalised message; the hook's own fallback is never reached |
| `UseAxios.RecordedErrorNeverEmpty` | hooks/useAxios.ts:143-149 | from a state with no empty error, any trace of starts, settles and resets leaves no empty error |
| `UseAxios.LoadingIffLatestStarted` | hooks/useAxios.ts:133-170 | after any non-empty trace, `loading` is true exactly when the latest action started a request, so it is never left stuck after a settle or a reset |
| `UseAxios.DataKept` | hooks/useAxios.ts:133-157 | starts and failures never change `data` (stale-while-revalidate) |
| `UseAxios.ErrorKept` | hooks/useAxios.ts:133-157 | only a start, a failure or a reset changes `error`; a success does not |
| `UseAxios.LatestSuccessWins` | hooks/useAxios.ts:137-140 | after a successful settle, `data` is its payload until a later success or reset, whatever starts or failures come between (last settled wins) |
| `UseAxios.LatestFailureWins` | hooks/useAxios.ts:141-149 | after a failed settle, `error` is its message until a later start, failure or reset; a success settling later leaves it |
| `UseAxios.RequestCycle` | hooks/useAxios.ts:133-158 | one sequential request ends with `loading` false; a success gives `error` null and `data` the payload; a failure gives the recorded message and keeps the previous `data` |
| `UseAxios.ResetIdempotent` | hooks/useAxios.ts:166-170 | reset gives the initial state; resetting twice is resetting once; resetting a fresh state changes nothing |
| `UseAxios.StaleDataBesideError` | hooks/useAxios.ts:137-154 | a failure after a success leaves both the old `data` and the new `error` set, with `loading` false |
| `UseAxios.AxiosHook.constructor` | hooks/useAxios.ts:122-125 | a fresh hook has `loading` false, `error` null and `data` null |
| `UseAxios.AxiosHook.BeginRequest` | hooks/useAxios.ts:133-135 | sets `loading` true and clears `error`, even after a failure; `data` is unchanged |
| `UseAxios.AxiosHook.Settle` | hooks/useAxios.ts:137-157 | a success stores the payload and returns the full response; a failure records `HookMessage`, keeps `data` and returns nothing instead of rethrowing; either way `loading` ends false and no recorded error is empty |
| `UseAxios.AxiosHook.Reset` | hooks/useAxios.ts:166-170 | sets `loading` false, `error` null and `data` null |
| `UseAxios.AxiosHook.Request` | hooks/useAxios.ts:133-158 | begin, send through the client, settle: a success gives `data` the payload with no error; a failure records the client's normalised message and keeps `data`; storage changes as the response interceptor says; the caller's config is not changed |

## Left out

- The network transport is not modelled: the actual call, the 10-second timeout, the base URL taken from the environment, and JSON encoding and decoding. The transport's outcome is an input (`Outcome<T>`), and it does not depend on the headers sent.
- Logging (`console.warn` on 401, `console.error` in the hook) is output only and is left out.
- React machinery is left out: `useState` and `useCallback` memoisation, and the mount/unmount lifecycle. One `AxiosHook` object stands for one instantiation.
- Asynchrony is reduced to atomic steps. Overlapping requests and a settle after `reset` appear only as interleavings in traces (`Run`), not as promises.
- Axios.Api.Request: the copy of the caller's config is reduced to its headers. The headers merge is a plain map union in which the caller's headers override the defaults. Axios's per-method default headers and the merging of the other config fields are not modelled.
- Axios.RequestConfig keeps only the headers object. Method and URL are read only by the hook's failure log, which is left out.
- The request interceptor's rejection handler (lib/axios.ts:87) is not modelled. It only forwards an error unchanged, and no earlier interceptor can reject.
- Axios.NormalizeError: the spread `{ ...error }` builds a plain object. It keeps only the error's own enumerable fields and drops its prototype (methods, `instanceof`). The model keeps the record fields `name`, `code`, `status` and `response`, and the request config is not one of them.
- Axios.ApiErrorResponse: the open-ended extra keys (`[key: string]: unknown`) are not modelled, because nothing reads them.
- Body fields of a non-string type (a number in `message`, for example) would be picked by `||` in the source. The model types them as strings only.
- Header names are compared exactly. Axios header objects match names case-insensitively, which the model does not capture.
- UI components, the style guide, `lib/utils.ts` and the DOM hooks (media query, outside click, intersection observer) are presentation code or wrappers over browser APIs, and are not part of this model.
