# Client-side core of a user-management web application, modelled in Dafny

The application is a browser front end over a REST backend. Four pieces of
its client-side logic carry behaviour worth stating precisely, and they are
what this project models:

- **Page-number window** (`getPaginationWindow`). Given the current page, the
  number of pages and a spread `delta`, it lists page 1, an optional `"..."`,
  the pages within `delta` of the current page, an optional `"..."` and the
  last page. Module `Pagination` (`pagination.dfy`) gives the window as a
  value (`Window`) and the loop that builds it (`GetPaginationWindow`), and
  proves the loop equal to the value. The lemmas then cover the window's
  ends, its order and bounds, where ellipses go, and its length.
- **Credential store** (`authSlice`). It keeps the access token, the refresh
  token and the user email in memory and mirrors them into the browser's
  key/value storage. Module `Auth` (`auth.dfy`) gives each reducer as a
  function on values and as a method on the `AuthSlice` object. The
  invariant that memory mirrors storage is the object invariant.
- **Authenticated HTTP client** (`api.ts`). It has a request hook that
  stamps `Authorization: Bearer <token>` (section 2.1 of RFC 6750). It also
  has a response hook that answers an HTTP 401 (section 15.5.2 of RFC 9110)
  with a single-flight token refresh:
  - the in-flight flag `isRefreshing` allows at most one refresh call;
  - requests that fail while a refresh is in flight are parked in the FIFO
    queue `failedQueue`;
  - `processQueue` settles every parked request once the refresh settles;
  - each request carries a `_retry` mark, so it goes through the refresh
    path at most once.

  Module `Api` (`api.dfy`) models each hook invocation as one atomic
  transition on a `ClientState`. The refresh owner's path is two
  transitions: `HandleError` runs up to the refresh call, and
  `HandleRefreshResult` runs once that call has settled, with its outcome
  as a parameter. Other failures can be handled between the two, which is
  how requests come to be parked. The `ApiClient` class holds the same
  state as fields, and each method is proved equal to its transition.
- **Users list state** (`usersSlice`). Three fetch events (pending,
  fulfilled, rejected) update `{items, total, loading, error}`. Module
  `Users` (`users.dfy`) gives the reducer on values and as a class with one
  method per event.

`wrappers.dfy` holds `Option`, the map lookup `Get` (a missing key reads as
`null`) and JavaScript truthiness of an optional string (`null` and `""` are
falsy). The code decides with that truthiness whether a token is present.

Three details of the client's behaviour are worth noting:
- With no refresh token stored, the code rejects with the original 401
  error, not a distinct "session expired" error (`src/services/api.ts:48-51`).
- The code marks a request `_retry` as soon as the 401 is seen, before the
  refresh-token check. It does not wait until the refresh has succeeded
  (`src/services/api.ts:45`).
- The request hook reads the token from storage, not from the in-memory
  store (`src/services/api.ts:32`). Under the mirror invariant the two agree,
  and `ApiClient.InterceptRequest` states its result both ways.

## Model

| member | source | states |
|---|---|---|
| `Pagination.TotalOf` | src/utils/pagination.ts:4 | There is always at least one page: a positive page count is kept as given, and any other count becomes 1. |
| `Pagination.Clamp` | src/utils/pagination.ts:5 | The current page is forced into `[1, total]`: one in range is kept, one below becomes 1 and one above becomes `total`. |
| `Pagination.GetPaginationWindow` | src/utils/pagination.ts:2-32 | The list the push loop builds is exactly the window `Window` describes, in both branches. |
| `Pagination.WindowEnds` | src/utils/pagination.ts:8-30 | The window is never empty, its first entry is page 1 and its last entry is page `max(1, totalPages)`. |
| `Pagination.SmallTotalListsAllPages` | src/utils/pagination.ts:8-10 | With at most seven pages the window is exactly `1, 2, …, total`, with no ellipsis. |
| `Pagination.OutOfRangeCurrentIsClamped` | src/utils/pagination.ts:4-5 | Any current page, in range or not, gives the same window as its clamped value; nothing fails. |
| `Pagination.FramedShape` | src/utils/pagination.ts:12-31 | The long-form window is page 1, then the leading ellipsis if any, then the run `left..right`, then the trailing ellipsis if any, then the last page, each at a stated position. |
| `Pagination.WindowOrdered` | src/utils/pagination.ts:12-31 | For every `delta`, every page number lies in `[1, total]` and page numbers strictly increase from left to right. |
| `Pagination.WindowShowsCurrent` | src/utils/pagination.ts:5-24 | For `delta >= 0` the clamped current page is always in the window. |
| `Pagination.WindowGapsWellFormed` | src/utils/pagination.ts:13-28 | For `delta >= 0`: no two ellipses are adjacent; neighbouring pages without an ellipsis between them differ by one; every ellipsis sits between two pages and hides at least one page. |
| `Pagination.WindowLengthBound` | src/utils/pagination.ts:12-31 | With more than seven pages and `delta >= 0` the window has at most `2 * delta + 5` entries, so nine for the default `delta = 2`. |
| `Pagination.NegativeDeltaCanRepeatEllipsis` | src/utils/pagination.ts:13-28 | Without `delta >= 0` the ellipsis property fails: `(5, 10, -1)` gives `1, …, …, 10`. |
| `Auth.InitialState` | src/features/auth/authSlice.ts:10-14 | Each of the three fields is the stored value, or null when the key is missing; the start state is mirrored. |
| `Auth.SetTokensStoresTokens` | src/features/auth/authSlice.ts:20-25 | `setTokens` puts both payload tokens in memory and in storage. |
| `Auth.SetTokensEmail` | src/features/auth/authSlice.ts:23-26 | The email, in memory and in storage, becomes the payload email when that email is non-empty. Otherwise both keep their previous values. |
| `Auth.ClearAuthClearsAndIsIdempotent` | src/features/auth/authSlice.ts:28-35 | `clearAuth` nulls all three fields and removes all three keys; applying it twice equals applying it once. |
| `Auth.ReducersKeepMirror` | src/features/auth/authSlice.ts:20-35 | From a mirrored state both reducers leave memory equal to storage, and no storage key other than the three credential keys changes. |
| `Auth.TokensMirroredAfterAnyReducer` | src/features/auth/authSlice.ts:20-35 | From any state, the tokens in memory equal the stored tokens after `setTokens`, and everything is mirrored after `clearAuth`. |
| `Auth.AuthSlice.constructor` | src/features/auth/authSlice.ts:10-14 | The store starts from what storage holds and is mirrored. |
| `Auth.AuthSlice.SetTokens` | src/features/auth/authSlice.ts:20-27 | Updates fields and storage in place as `setTokens` does, and keeps the mirror invariant. |
| `Auth.AuthSlice.ClearAuth` | src/features/auth/authSlice.ts:28-35 | Clears fields and storage keys in place as `clearAuth` does, leaving the store mirrored. |
| `Users.InitialState` | src/features/users/usersSlice.ts:12-17 | No items, total 0, not loading, no error. |
| `Users.ReduceFrames` | src/features/users/usersSlice.ts:33-44 | `pending` sets only `loading`. `fulfilled` clears `loading`, takes items and total from the payload and keeps `error`. `rejected` clears `loading`, sets `error` to the message or null, and keeps items and total. |
| `Users.ReduceAllOutcome` | src/features/users/usersSlice.ts:33-44 | After any run of events, `loading` is true exactly when the last event was `pending`, so it is false after any settling event. Items and total are those of the last fulfilled fetch, or the earlier ones if no fetch was fulfilled. |
| `Users.UsersSlice.constructor` | src/features/users/usersSlice.ts:12-17 | The slice starts in the initial state. |
| `Users.UsersSlice.OnPending` | src/features/users/usersSlice.ts:33-35 | Sets `loading` and leaves items, total and error as they were. |
| `Users.UsersSlice.OnFulfilled` | src/features/users/usersSlice.ts:36-40 | Clears `loading`, stores the payload's users and `meta.total`, and leaves `error` as it was. |
| `Users.UsersSlice.OnRejected` | src/features/users/usersSlice.ts:41-44 | Clears `loading`, sets `error` to the message (null when absent), and leaves items and total as they were. |
| `Api.StampRequest` | src/services/api.ts:31-37 | The request hook keeps the request's identity and retry mark, and never adds or removes the header object. |
| `Api.StampRequestSetsBearer` | src/services/api.ts:31-37 | `Authorization` becomes `Bearer <token>` exactly when a non-empty token is stored; otherwise the config is unchanged; no other header changes. |
| `Api.SettleAllInOrder` | src/services/api.ts:23-29 | `processQueue` settles every parked request exactly once, in insertion order. All are rejected with the error when there is one, and otherwise all are resolved with the token. |
| `Api.Resume` | src/services/api.ts:53-66 | A rejected parked request rejects with that error. A resolved one is replayed, keeping its identity and retry mark. When the token is non-empty and the request has headers, the replay carries `Authorization: Bearer <token>`; otherwise the request is replayed unchanged. Every header other than `Authorization` is kept. |
| `Api.InvPreserved` | src/services/api.ts:44-101 | Both transitions keep the invariant: credentials mirrored, nothing parked unless a refresh is in flight, every parked request marked for retry. |
| `Api.IneligiblePassesThrough` | src/services/api.ts:44-104 | A failure other than a 401, or a 401 on an already-marked request, is rejected with the original error; flag, queue and credentials are unchanged. |
| `Api.EligibleMarksRetry` | src/services/api.ts:44-45 | On an eligible 401 the request is marked for retry first, and every outcome carries the marked config; nothing is replayed straight away. |
| `Api.NoRefreshTokenClearsCredentials` | src/services/api.ts:46-51 | With no refresh token stored, the store becomes `ClearAuthStep` of the old one: the three credential keys are removed and every other storage key is kept. The same error is rejected, with its config marked `_retry`. No refresh call starts, and the flag and queue are unchanged. |
| `Api.WhileRefreshingOnlyEnqueues` | src/services/api.ts:53-59 | While a refresh is in flight, an eligible 401 only appends its marked request to the end of the queue. No second refresh starts, and the flag and credentials stay the same. |
| `Api.OwnerRaisesFlag` | src/services/api.ts:69-72 | Otherwise the request becomes the refresh owner. The flag is raised before the refresh call, which carries the stored refresh token, and the queue and credentials are unchanged. |
| `Api.RefreshSuccess` | src/services/api.ts:72-94 | On success: both new tokens are stored in memory and storage; the queue is drained with the new access token; the owner is replayed, keeping its identity and retry mark, and with `Bearer <new token>` when it has headers, with its other headers kept; the flag is lowered. The new store is `SetTokensStep` with no email, so the stored email is kept. |
| `Api.RefreshFailure` | src/services/api.ts:95-101 | On failure (including a malformed body): every parked request rejects with the refresh error; the store becomes `ClearAuthStep` of the old one, so storage keys outside the three credential keys are kept; the owner gets that error; the flag is lowered. |
| `Api.ReplayIsNeverRefreshedAgain` | src/services/api.ts:44-94 | The owner's replay, whatever was parked, and every parked replay carry the retry mark. A 401 on any of them is rejected as it is and changes nothing. |
| `Api.RefreshScenario` | src/services/api.ts:31-94 | With `A1`/`R1` stored, a request is sent with `Bearer A1`, and its 401 starts one refresh with `R1`. When that refresh returns `A2`/`R2`, the store holds `A2`/`R2` and the request is replayed once with `Bearer A2`. |
| `Api.SingleFlight` | src/services/api.ts:53-69 | However many failures arrive before the refresh settles, at most one refresh call starts, and none starts while one is already in flight. |
| `Api.QueueIsFifo` | src/services/api.ts:53-59 | The queue only grows, at its end, by the parked requests in their arrival order. |
| `Api.InFlightParksAll` | src/services/api.ts:53-59 | While a refresh is in flight and a refresh token is stored, eligible 401s are all parked in arrival order, and nothing else changes. |
| `Api.ConcurrentUnauthorizedShareOneRefresh` | src/services/api.ts:53-101 | When N requests fail with 401 and no refresh is in flight, exactly one refresh call starts. If it succeeds, every parked request is replayed with the one new access token; if it fails, every parked request rejects with its error. |
| `Api.ApiClient.constructor` | src/services/api.ts:20-21 | The client starts with no refresh in flight and nothing parked. |
| `Api.ApiClient.InterceptRequest` | src/services/api.ts:31-37 | Stamps the token read from storage at send time. Under the mirror invariant this is the store's access token, and a missing or empty token leaves the config unchanged. |
| `Api.ApiClient.ProcessQueue` | src/services/api.ts:23-29 | The loop settles the parked requests in order, exactly as `SettleAll` says, then empties the queue; the flag is unchanged. |
| `Api.ApiClient.InterceptResponseError` | src/services/api.ts:39-69 | The in-place response hook, up to the refresh call, equals `HandleError` and keeps the invariant. |
| `Api.ApiClient.FinishRefresh` | src/services/api.ts:69-101 | The owner's continuation after the refresh call equals `HandleRefreshResult`, lowers the flag on both paths and keeps the invariant. |

## Left out

- Promises, axios and scheduling: each hook invocation is one atomic transition. What the network does is a parameter: the status of a failed call, and the outcome of the refresh call.
- The replay (`axios(originalRequest)`): the model returns the request as it will be resent (`Replay`) and does not model the response. The replay goes through the plain axios instance, which has neither hook.
- The storage writes at `src/services/api.ts:78-79` repeat what `setTokens` writes next. They are modelled once, through `Auth.SetTokensStep`.
- A refresh body whose `data` object exists but lacks a token field: the code would store the string `"undefined"`. `RefreshResult` carries either a full token pair or a failure. A missing `data` object throws, and that is modelled as a failure.
- A thrown value that is falsy: `processQueue` would then resolve instead of reject. Refresh errors are modelled as always present (truthy).
- A 401 without a request config: the code would throw a `TypeError` when it reads `_retry` (other statuses short-circuit before that read). Every `HttpError` carries a config.
- The default `delta` of 2 (`src/utils/pagination.ts:2`): callers of `GetPaginationWindow` always pass `delta`. The lemmas take `delta` as a parameter; `WindowShowsCurrent`, `WindowGapsWellFormed` and `WindowLengthBound` need `delta >= 0` (`NegativeDeltaCanRepeatEllipsis` shows why), and `WindowLengthBound` gives nine entries at `delta = 2`.
- Requests are values: the hooks' in-place changes to the shared config object are modelled as returning the updated config. The `_retry` mark shows up in every outcome and in the queue.
- `undefined` and `null` are not told apart: both are `None`, in `userEmail`, in `error` and in the optional payload email.
- Page numbers are unbounded integers: non-integer, `NaN` or infinite `current`, `totalPages` or `delta` values are not modelled.
- `getPagination`, which `src/pages/users/UsersList.tsx:7` imports and `:25` calls, is not defined in `src/utils/pagination.ts`. It is not part of this model.
- `fetchUsersThunk` (a network call) is not modelled; only the three reducer cases are. The fulfilled payload is taken to be `{ users, meta: { total } }`.
- The thin request wrappers in `src/services/userApi.ts` are not part of this model, and neither is the image upload in `src/services/cloudinary.ts`. Both are network calls.
- Form validation (`src/utils/validators.ts` and the schemas in the pages) is not modelled: it relies on a validation library that is not part of this model.
- The pages, components, layouts, routing and Redux store configuration are not modelled. They are UI rendering and wiring.
- The base URL, the endpoint paths and the default `Content-Type` header are configuration with no behaviour to prove.
