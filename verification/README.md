# betconstruct client core, modelled in Dafny

The Go library wraps three vendor HTTP APIs: the back office, the CRM and the
accounts service. This project models the logic those clients own:

- **Credential pools for the back office.**
  - The in-process pool (`LocalPool`, over `AuthTokens`) is an array of tokens with a cursor that walks round-robin. It skips tokens whose rate-limit stamp is younger than four minutes. It stamps `lastUsed` on the token it hands out.
  - The shared pool (`SharedPool`) keeps the token list and one cooldown marker per token in a key-value store. Each probe rotates the list one step, moving the tail to the head. A marker expires after the cooldown.
- **The three request dispatchers.**
  - `Backoffice`:
    - resolves the credential, from the pool or the static token
    - classifies every non-2xx status
    - marks the pool token on 401/403, where a marking error wins
    - unwraps the `{Data, HasError, AlertMessage}` envelope, where `HasError` beats a 2xx status.
  - `Crm` uses a bearer token. It runs a single refresh-and-retry on 401, guarded by `isRetry`, `refreshOnExpiry` and the package-wide `isRefreshing` flag. It also has an optional callback that takes over the response body.
  - `Accounts` sends no credential and never returns data.
  - The CRM `Login` strips one `"Bearer "` prefix and installs the token. `New` applies options in order and logs in when a platform token is set.
- **The wire codecs the client defines** (`BackofficeTypes`, `BackofficeEndpoints`, `CrmReports`):
  - integer-coded enumerations
  - `NumericBool`
  - the lenient payment-method decoders
  - the payment-method, payment-document and withdrawal-listing requests, with the null-if-zero serialiser
  - the Excel download, where a body that parses as a JSON envelope means "not ready".

Modules and how state is modelled:

- Code that changes state in place is written as classes: `LocalPool.Pool` over an `array`, `SharedPool.Store` and `SharedPool.RedisPool`, `Backoffice.Client`, `Crm.Client` and `Crm.RefreshFlag`. Each of these methods is proved equal to a pure specification function over a value view of the state, for example `Acquire`, `Probe`, `Dispatch`, `DoSpec` or `LoginSpec`. The lemmas state the source's promises about those functions.
- Time is an integer `now` in nanoseconds.
- The server is a function from request to response, held by `Http.HttpClient`. The client logs every request it sends.
- A response body carries the JSON document its text parses to, if any. JSON is the value type `Json.Json`.

## Model

| member | source | states |
|---|---|---|
| AuthTokens.AuthToken.WithLastUsed | backoffice/pool/auth_token.go:25-27 | sets only `lastUsed`; secret, stamp and the rate-limited verdict at every instant are unchanged |
| AuthTokens.AuthToken.WithRateLimited | backoffice/pool/auth_token.go:29-31 | sets only `rateLimitedAt`; afterwards the token is rate-limited exactly at instants before the stamp plus four minutes |
| AuthTokens.NewAuthToken | backoffice/pool/auth_token.go:33-37 | `String()` is the given secret; never used; rate-limited at no instant |
| AuthTokens.CooldownBoundary | backoffice/pool/auth_token.go:17-23 | a stamped token is excluded at the stamp and one nanosecond before four minutes, and selectable again at exactly four minutes (strict comparison) |
| LocalPool.ProbeIndex | backoffice/pool/pool.go:29 | the index examined at any step of a scan over a non-empty pool is inside the array |
| LocalPool.StepOf | backoffice/pool/pool.go:28-29 | every index of the array is examined at some step of a scan |
| LocalPool.ScanIsPermutation | backoffice/pool/pool.go:28-29 | no index is examined twice in one scan |
| LocalPool.FirstFree | backoffice/pool/pool.go:28-30 | the scan stops at the first step whose token is not rate-limited; every earlier step found a rate-limited token |
| LocalPool.Acquire | backoffice/pool/pool.go:23-37 | returned token not rate-limited; cursor becomes index+1 mod n and stays valid; only that token's `lastUsed` changes; secrets, stamps and length untouched; nil changes nothing |
| LocalPool.AcquireNoneIff | backoffice/pool/pool.go:27-36 | nil exactly when the pool is empty or every token is rate-limited |
| LocalPool.AcquireSkipsOnlyRateLimited | backoffice/pool/pool.go:28-30 | every index between the cursor and the returned one, cyclically, was rate-limited |
| LocalPool.RoundRobinOrder | backoffice/pool/pool.go:28-32 | with no token in cooldown, call t of up to n consecutive calls returns (nextIndex + t) mod n |
| LocalPool.RoundRobinFair | backoffice/pool/pool.go:28-32 | with no token in cooldown, n consecutive calls return every index exactly once |
| LocalPool.FreshPoolFirstCall | backoffice/pool/pool.go:51-55 | a fresh pool hands out the lowest usable index, so index 0 when its token is usable |
| LocalPool.FirstMatch | backoffice/pool/pool.go:42-46 | the first index whose secret equals the argument; no earlier index matches |
| LocalPool.MarkRateLimited | backoffice/pool/pool.go:39-49 | stamps exactly the first matching token and nothing else; an unknown secret changes nothing; cursor untouched |
| LocalPool.StampedTokenSkipped | backoffice/pool/pool.go:28-36 | an entry stamped at `at` stays stamped, and is handed out by no call of a run of consecutive draws made before `at` plus four minutes |
| LocalPool.MarkedTokenExcluded | backoffice/pool/pool.go:28-48 | after `SetRateLimited(token)` at `at`, no call of any run of consecutive draws made before `at` plus four minutes hands out the first entry with that token |
| LocalPool.ExampleRotation | backoffice/pool/pool.go:23-49 | pool [A,B,C]: A, then mark A, then B, C, B; after the cooldown C and A |
| LocalPool.Pool.constructor | backoffice/pool/pool.go:51-55 | the array holds the given tokens and the cursor is 0 |
| LocalPool.Pool.GetAuthToken | backoffice/pool/pool.go:23-37 | the loop's result and new array and cursor are those of `Acquire`; the handle holds the stamped token at the returned index |
| LocalPool.Pool.SetRateLimited | backoffice/pool/pool.go:39-49 | the new array is `MarkRateLimited` of the old one; always returns nil |
| SharedPool.ListLen | backoffice/pool/redis/redis.go:19 | the list length, 0 for a missing key |
| SharedPool.MoveRightToLeft | backoffice/pool/redis/redis.go:21-24 | succeeds iff the store is reachable and the list is non-empty; returns the last element and moves it to the front; a failure changes nothing |
| SharedPool.MarkerKeyInjective | backoffice/pool/redis/redis.go:26 | distinct tokens have distinct marker keys |
| SharedPool.Probe | backoffice/pool/redis/redis.go:20-31 | other keys and expiries untouched; the list keeps its multiset of tokens; a returned token is in the list and has no live marker |
| SharedPool.AcquireSound | backoffice/pool/redis/redis.go:18-33 | a returned token is in the list with no live marker; the list keeps its length and its tokens, only the order changes |
| SharedPool.RotatedStep | backoffice/pool/redis/redis.go:21 | after k probes the next probe examines the (k+1)-th element from the end and leaves the list rotated by k+1 |
| SharedPool.FirstUnmarked | backoffice/pool/redis/redis.go:26-29 | the first probe, counting from the list's end, whose token has no live marker; every earlier probe found one |
| SharedPool.ProbeOrder | backoffice/pool/redis/redis.go:20-31 | the remaining probes examine the list from the end backwards and stop at the first unmarked token, leaving the list rotated by the number of probes |
| SharedPool.AcquireOrder | backoffice/pool/redis/redis.go:18-33 | a full draw on a reachable store is the first unmarked token counted from the end, or nil after LLen probes |
| SharedPool.AllMarkedFullCircle | backoffice/pool/redis/redis.go:19-32 | when every token has a live marker the draw is nil and the list is as it was |
| SharedPool.UnreachableStoreYieldsNothing | backoffice/pool/redis/redis.go:21-24 | a failing rotation yields nil and changes nothing |
| SharedPool.SetWithExpiry | backoffice/pool/redis/redis.go:37 | fails iff the store is unreachable, and then changes nothing; otherwise the key is live exactly before now + ttl and no other key's liveness changes |
| SharedPool.MarkRateLimited | backoffice/pool/redis/redis.go:35-38 | surfaces the store error; otherwise exactly this token's marker becomes live and lists are untouched |
| SharedPool.Draws | backoffice/pool/redis/redis.go:18-33 | consecutive draws never touch the markers or the store's reachability |
| SharedPool.MarkerHoldsOverRun | backoffice/pool/redis/redis.go:26-30 | a token whose marker is live at every call of a run is handed out by none of them |
| SharedPool.MarkedTokenSkipped | backoffice/pool/redis/redis.go:26-37 | the marker `SetRateLimited` writes is the one `GetAuthToken` probes: once a mark at `at` succeeds, no call of any run of consecutive draws made before `at` plus four minutes hands out that token |
| SharedPool.PoolKey | backoffice/pool/redis/redis.go:44-46 | an empty key becomes the non-empty default; any other key is kept |
| SharedPool.Store.Ping | backoffice/pool/redis/redis.go:41 | fails iff the store is unreachable |
| SharedPool.Store.LLen | backoffice/pool/redis/redis.go:19 | the length of the list |
| SharedPool.Store.LMove | backoffice/pool/redis/redis.go:21 | result and new store as `MoveRightToLeft` |
| SharedPool.Store.Exists | backoffice/pool/redis/redis.go:27 | 1 iff the key is live at `now`, else 0 |
| SharedPool.Store.Set | backoffice/pool/redis/redis.go:37 | result and new store as `SetWithExpiry` |
| SharedPool.RedisPool.constructor | backoffice/pool/redis/redis.go:47-51 | the marker prefix is the key followed by `:ratelimit` |
| SharedPool.RedisPool.GetAuthToken | backoffice/pool/redis/redis.go:18-33 | the loop's result and new store are those of `Acquire`; the token returned is fresh, so never rate-limited |
| SharedPool.RedisPool.SetRateLimited | backoffice/pool/redis/redis.go:35-38 | error and new store as `MarkRateLimited` with the pool's marker prefix |
| SharedPool.New | backoffice/pool/redis/redis.go:40-52 | fails iff the ping fails; otherwise the key is the given one or the default, and the marker prefix is that key followed by `:ratelimit` |
| Json.DecodeInt | backoffice/types.go:40-43 | decoding into a Go `int`: an in-range integer is stored, `null` leaves 0, anything else is an error |
| Http.Classify | backoffice/request.go:70-101 | every non-2xx status maps to one of the ten status errors |
| Http.ClassifyStatusOf | backoffice/request.go:70-101 | each named error is what its own status classifies to, and that status is not 2xx |
| Http.ClassifyNamedOrUnexpected | backoffice/request.go:70-101 | `UnexpectedStatus` exactly outside 400, 401, 403, 404, 405, 429, 500, 502 and 503; a named error always stands for the status that produced it |
| Http.AsEnvelope | backoffice/request.go:104-105 | only an object or `null` decodes as the envelope; `null` gives the zero envelope |
| Http.ReadAll | crm/ad_hoc_report_result.go:39-42 | succeeds exactly on a body read in full, with its bytes |
| Http.EnvelopeResult | backoffice/request.go:104-111 | succeeds iff the body decodes as an envelope without `HasError`, and then returns `Data`; `HasError` yields the alert message |
| Http.HttpClient.Do | backoffice/request.go:63-66 | the response is the server's answer to the request, and the request is appended to the log |
| Backoffice.Draw | backoffice/request.go:51 | the pool's draw; the pool's kind and keys are kept |
| Backoffice.Mark | backoffice/request.go:75 | the pool's mark; a local pool never fails |
| Backoffice.Credential | backoffice/request.go:49-60 | without a pool the static token; with one, the pool's draw |
| Backoffice.Outbound | backoffice/request.go:42-61 | URL is base + path, JSON content type, the credential in `Authentication` |
| Backoffice.Dispatch | backoffice/request.go:35-112 | pool validity is kept and at most one request is sent |
| Backoffice.EmptyPoolSendsNothing | backoffice/request.go:50-57 | with a pool and no token: `ErrUnauthorized` and nothing sent |
| Backoffice.CredentialSent | backoffice/request.go:49-61 | the static token is sent verbatim without a pool; with a pool the drawn token is sent, and the static token plays no part |
| Backoffice.NonSuccessStatus | backoffice/request.go:69-101 | non-2xx always fails; 401/403 with a pool marks the token that was sent and a marking error replaces the status error; otherwise the table's error and the pool as drawn |
| Backoffice.OnlyAuthFailuresMark | backoffice/request.go:73-86 | only a 401 or 403 reply changes the pool after the draw |
| Backoffice.LocalPoolAuthErrors | backoffice/request.go:73-86 | with the local pool, 401 is always `ErrUnauthorized` and 403 `ErrForbidden` |
| Backoffice.LocalAuthFailureStamps | backoffice/request.go:74-85 | with a local pool, a 401 or 403 stamps, at the call's time, the first entry whose string is the token sent, an entry no later than the one drawn, and no run of calls in the next four minutes hands that entry out |
| Backoffice.SuccessIff | backoffice/request.go:69-111 | success iff one request was sent, the reply is 2xx and the envelope decodes without `HasError`; data is `Data`; `HasError` gives the alert message |
| Backoffice.Client.ResolveCredential | backoffice/request.go:49-60 | token and new pool as `Credential` |
| Backoffice.Client.MarkToken | backoffice/request.go:74-85 | error and new pool as `Mark` |
| Backoffice.Client.MakeRequest | backoffice/request.go:35-112 | result, new pool and sent requests are those of `Dispatch` |
| Crm.TrimBearer | crm/user.go:21 | removes exactly one leading `"Bearer "`; a string without it is unchanged |
| Crm.TrimBearerAdded | crm/user.go:21 | a token sent back with the prefix is stored without it |
| Crm.Outbound | crm/request.go:62-69 | URL is base + path, JSON content type, `Authentication: Bearer <authToken>` |
| Crm.LoginCall | crm/user.go:11-16 | the login is a POST of the JSON encoding of the platform token to the login path; the body can be rewound, there is no callback, and the reply must decode as a string |
| Crm.Complete2xx | crm/request.go:115-127 | with a callback: it takes the body and its error or nil is the result, with no data; without one: the envelope result |
| Crm.RetryCall | crm/request.go:85-88 | the retry keeps the method, path, decoding and callback; it resends the body iff the body can be rewound, and otherwise sends none |
| Crm.DoSpec | crm/request.go:53-128 | success without a callback has data; a handed body means a callback was given and its error decides success; `isRefreshing` is set only around the refresh and always cleared, so a call leaves it as it found it; the platform token and refresh setting are untouched; the first request sent is the call itself |
| Crm.LoginSpec | crm/user.go:11-25 | `Login` succeeds iff its login call does; it leaves `isRefreshing`, the platform token and the refresh setting as they were; its first request is the login request |
| Crm.NoRefreshSingleSend | crm/request.go:78 | a retry, or a call during a refresh, sends exactly one request and changes nothing |
| Crm.RefreshLoginSingleSend | crm/request.go:79-81 | a refresh's own login cannot refresh again: it sends exactly the login request |
| Crm.RefreshPath | crm/request.go:77-89 | a refresh (the `ShouldRefresh` guard) happens iff the reply is 401, not a retry, refresh is on and none is running; then the sends are the call, the login, and the retried call with the new token; a failed login gives `ErrUnauthorized` |
| Crm.SecondUnauthorized | crm/request.go:78-95 | a 401 on the retry gives `ErrUnauthorized` after three sends, with no further refresh |
| Crm.StatusTable | crm/request.go:91-112 | without a refresh, the status table is the shared one |
| Crm.SuccessTail | crm/request.go:115-127 | on 2xx the callback's verdict, or else the envelope result; the session is unchanged and one request is sent |
| Crm.LoginResult | crm/user.go:16-22 | succeeds iff its request does; on success the token is the reply with one prefix removed; a failure returns the request's error, and leaves the token as it was when no refresh can run |
| Crm.LoginStoresBareToken | crm/user.go:21-22 | a reply `"Bearer " + t` stores `t` |
| Crm.ApplyOption | crm/client.go:34-53 | `WithAuthToken`, `WithBetconstructToken` and `WithRefreshOnExpiry` each set exactly their own field |
| Crm.ApplyAll | crm/client.go:19-23 | options applied in order leave the flag alone; a token no option sets keeps its initial value; refreshing is on iff it was or some option turns it on |
| Crm.LastOptionWins | crm/client.go:19-23 | options apply in order: each field is set by its last option, or keeps its default |
| Crm.NewSpec | crm/client.go:15-30 | `New` logs in iff the platform token is non-empty after all options, with the login request first, and is then exactly that `Login`, failing iff it fails; the platform token and refresh setting are those the options gave; after a login the access token is the one `Login` installs; the shared flag is left as found |
| Crm.RefreshFlag.constructor | crm/request.go:51 | the package-wide flag starts false |
| Crm.Client.constructor | crm/client.go:16-18 | both tokens empty, refreshing off |
| Crm.Client.Apply | crm/client.go:34-53 | each option sets exactly one field |
| Crm.Client.DoRequest | crm/request.go:53-128 | result, callback body, new session, flag and sent requests are those of `DoSpec` |
| Crm.Client.MakeRequest | crm/request.go:40-49 | `DoSpec` with `isRetry` false |
| Crm.Client.Login | crm/user.go:11-25 | error, new session and sent requests are those of `LoginSpec` |
| Crm.New | crm/client.go:15-30 | the loop applies the options in order; the result, client state and sent requests are those of `NewSpec`: options applied, then the login iff a platform token is set; the shared `isRefreshing` flag is restored to its value on entry |
| CrmReports.ExcelRequest | crm/ad_hoc_report_result.go:24-31 | exactly the six fields: the id, "TRY", "xlsx", "0", 3 and "report" |
| CrmReports.ExcelCallback | crm/ad_hoc_report_result.go:38-47 | a read error is returned; a body that parses as the envelope gives `ErrReportResultNotReady`; any other body is accepted |
| CrmReports.ExcelCall | crm/ad_hoc_report_result.go:38 | POST to the Excel path with the fixed body and the callback |
| CrmReports.Download | crm/ad_hoc_report_result.go:23-53 | bytes iff the dispatcher succeeded on the Excel call, and then the raw body, read in full, that does not parse as an envelope; an envelope gives not-ready; a read error and every dispatcher error come back with no bytes |
| CrmReports.DownloadReportAsExcel | crm/ad_hoc_report_result.go:23-53 | result, session and sent requests are those of `Download` |
| Accounts.Outbound | accounts/request.go:36-42 | `text/html` content type and no `Authentication` header |
| Accounts.Interpret | accounts/request.go:44-80 | transport error; the table's error on non-2xx; the callback's verdict on 2xx; nil with no callback |
| Accounts.MakeRequest | accounts/request.go:28-81 | sends one request to base URL + path, `text/html`, no `Authentication`; nil iff the reply is 2xx and the callback, if any, accepts the body; a transport error is returned wrapped; a non-2xx status gives the shared table's error for that status (404 gives `ErrNotFound`, and so on), `UnexpectedStatus` exactly outside the nine named statuses; on 2xx the callback's error is the result |
| BackofficeTypes.UnmarshalTransactionType | backoffice/types.go:39-59 | a non-integer is an error and leaves the receiver; an integer is decoded by the table |
| BackofficeTypes.TransactionTypeRoundTrip | backoffice/types.go:44-57 | the code table (`TransactionTypeOf`) and its inverse (`TransactionTypeID`): 15, 10, 301, 302 and 3 map one-to-one to the five named types; every other code is `unknown` |
| BackofficeTypes.UnmarshalWithdrawalStatus | backoffice/types.go:93-111 | a non-integer is an error and leaves the receiver; an integer is decoded by the table |
| BackofficeTypes.WithdrawalStatusRoundTrip | backoffice/types.go:98-109 | the code table (`WithdrawalStatusOf`) and its inverse (`WithdrawalStatusID`): 0, 3, -2 and -1 map one-to-one to the four named states; every other code is `unknown` |
| BackofficeTypes.NullWithdrawalStatusIsPending | backoffice/types.go:94-100 | a `null` state decodes as pending |
| BackofficeTypes.MarshalSportBetStatus | backoffice/types.go:155-165 | pending encodes to 1; every other status is the unknown-status error |
| BackofficeTypes.UnmarshalSportBetStatus | backoffice/types.go:167-179 | 1 is pending, any other integer unknown; a non-integer is an error and leaves the receiver |
| BackofficeTypes.SportBetStatusRoundTrip | backoffice/types.go:155-179 | whatever encodes decodes back to itself |
| BackofficeTypes.MarshalNumericBool | backoffice/types.go:196-205 | true is 1, false is 0 |
| BackofficeTypes.UnmarshalNumericBool | backoffice/types.go:207-214 | true iff the integer is non-zero; a non-integer is an error and leaves the receiver |
| BackofficeTypes.NumericBoolRoundTrip | backoffice/types.go:196-214 | encode then decode is the identity; decode then encode normalises to 0 or 1 |
| BackofficeTypes.UnmarshalGroupIDs | backoffice/types.go:363-384 | a string gives the empty list; an array is accepted; anything else is the invalid-group-ids error and leaves the receiver |
| BackofficeTypes.DecodeArrayOption | backoffice/types.go:286-297 | an object with string-or-missing `value` and `text` decodes; only an object or `null` can |
| BackofficeTypes.DecodeArrayForm | backoffice/types.go:296-297 | the array form decodes iff every element does, element by element |
| BackofficeTypes.ObjectMemberOption | backoffice/types.go:305-318 | an object member without string `value` and `text` is the invalid-options error; a non-object member is skipped |
| BackofficeTypes.Collect | backoffice/types.go:303-321 | fails iff some member is bad; otherwise holds exactly the options of the object members |
| BackofficeTypes.CollectOptions | backoffice/types.go:304-319 | the loop with its early return yields `Collect` |
| BackofficeTypes.CollectStopsAtFailure | backoffice/types.go:307-313 | the first bad member decides the result |
| BackofficeTypes.CollectOrderIndependent | backoffice/types.go:304 | failure and the collected options do not depend on map iteration order |
| BackofficeTypes.UnmarshalFieldOptionsAsWritten | backoffice/types.go:295-328 | the array form is assigned; the object form is validated, but the receiver is left as it was |
| BackofficeTypes.UnmarshalFieldOptions | backoffice/types.go:295-328 | same errors as written; the object form assigns exactly the collected options |
| BackofficeTypes.ObjectFormDropped | backoffice/types.go:303-321 | `{"a":{"value":"v","text":"t"}}` decodes without error yet leaves the receiver empty as written; the corrected decoder yields the option |
| BackofficeEndpoints.MarshalListStatus | backoffice/reference.go:12-21 | active is 1; inactive and any other value 0 |
| BackofficeEndpoints.ListPaymentMethodsBody | backoffice/reference.go:41-51 | request type 1; `status` present iff non-empty, then encoded |
| BackofficeEndpoints.ListPaymentMethodsEndpoint | backoffice/reference.go:41-57 | a POST to `/Reference/PaymentAPI` whose body carries request type 1, and `status`, encoded, exactly when the filter is non-empty |
| BackofficeEndpoints.FindPaymentMethodBody | backoffice/reference.go:71-79 | request type 1 and the name under `system_name` |
| BackofficeEndpoints.UpdatePaymentMethodBody | backoffice/reference.go:106-113 | request type 6 alongside the method's own members |
| BackofficeEndpoints.FindPaymentMethodByName | backoffice/reference.go:71-99 | the dispatcher's error; not-found for an empty list; else the first method |
| BackofficeEndpoints.PaymentRequestTypes | backoffice/reference.go:41-123 | list and find send type 1, update sends 6; an empty status leaves only the type |
| BackofficeEndpoints.FindReturnsFirst | backoffice/reference.go:92-98 | a found method is the first one listed; not-found means an empty list |
| BackofficeEndpoints.ListPartnerDomainsEndpoint | backoffice/reference.go:127-128 | a GET without body |
| BackofficeEndpoints.PartnerIDIgnored | backoffice/reference.go:127-128 | every partner id yields the same request |
| BackofficeEndpoints.SetActiveDomainEndpoint | backoffice/reference.go:142-150 | POST with the domain id under `Id` |
| BackofficeEndpoints.MarshalPaymentType | backoffice/player.go:100-109 | correctionUp encodes to 3; any other type is the unknown-type error |
| BackofficeEndpoints.AddPaymentBody | backoffice/player.go:115-126 | encoding fails exactly when the type does; otherwise the four fields |
| BackofficeEndpoints.AddPaymentToPlayer | backoffice/player.go:122-141 | an encoding error is returned before any request; otherwise the payment-document request is sent |
| BackofficeEndpoints.AddPaymentErrorBeforeRequest | backoffice/player.go:122-141 | unknown type: nothing sent; otherwise one request, and nil iff it succeeds |
| BackofficeEndpoints.NullIfZeroTime | backoffice/client.go:24-29 | `null` iff the zero time, otherwise that time |
| BackofficeEndpoints.NullIfZeroInt | backoffice/client.go:30-32 | `null` iff 0, otherwise the id |
| BackofficeEndpoints.MarshalListWithdrawals | backoffice/client.go:17-34 | always exactly the three keys, each null-if-zero |
| BackofficeEndpoints.ListWithdrawalsRoundTrip | backoffice/client.go:17-34 | decoding the encoding gives the request back |
| BackofficeEndpoints.ListWithdrawalsCall | backoffice/client.go:40-51 | POST of the encoded request to the withdrawals path |
| BackofficeEndpoints.ClientRequests | backoffice/client.go:36-38 | the `ClientRequests` list, empty when it is absent or `null` |
| BackofficeEndpoints.ListWithdrawalsResult | backoffice/client.go:52-55 | the dispatcher's error, or exactly the `ClientRequests` list |
| BackofficeEndpoints.ListWithdrawals | backoffice/client.go:40-56 | result, pool and sent requests are those of `Dispatch` on the withdrawals call |

## Left out

- HTTP transport: `http.NewRequestWithContext` failures, context cancellation and closing the body are not modelled. The server is a pure function of the request: identical requests always get identical replies. For example, a refresh that returns the unchanged token always repeats the 401.
- JSON text: parsing and printing are not modelled. A response body carries the document it parses to, or none. A request carries the document `json.Marshal` would produce. The decoder's case-insensitive key matching is not modelled.
- One parsed document stands for two different parsers. The dispatchers use `json.NewDecoder(...).Decode` (crm/request.go:121, backoffice/request.go:105), which reads the first value and ignores trailing data. The Excel callback uses the strict `json.Unmarshal` (crm/ad_hoc_report_result.go:44), which rejects trailing data. A body that is a valid document followed by more text is therefore not distinguished.
- Concurrency: the pool's mutex is modelled by making each pool method one atomic step.
- SharedPool.RedisPool.GetAuthToken: each draw is treated as atomic with respect to other clients of the store. Other clients may LMOVE or SET between this draw's LLEN, LMOVE and EXISTS commands (backoffice/pool/redis/redis.go:19-27), and the interleavings that allows are not modelled.
- The package-wide `isRefreshing` flag: it is read and written without synchronisation. It is modelled as sequential shared state (`Crm.RefreshFlag`), so nothing is claimed about concurrent callers.
- Wall-clock time: `time.Now` and `time.Since` become an integer `now` parameter. One `now` serves both the draw and the mark of a backoffice call.
- SharedPool.Store.LLen: its error is not modelled. Each draw makes a rotation before any marker check, and that rotation fails first on an unreachable store.
- SharedPool.Store.Exists: its error is not modelled. The source reads `.Val()`, which is 0 on error, so an EXISTS failure after a successful LMOVE hands out the token whatever its marker. The model only has a store that is reachable or not for a whole draw, and an unreachable store fails the LMOVE first; transient failures within a draw are not modelled.
- SharedPool.Store.Ping: modelled only as "fails iff unreachable".
- SharedPool.Store.Set: the stored value (the Unix time) is not modelled, only the key's expiry.
- Floating point: `StringFloat64`, the `%.2f` amount encoder and all amount, balance and fee fields are not modelled. `AddPaymentToPlayerRequest` keeps the amount as the text its encoder writes.
- Go `time` layouts: `DateTime`, the date encoders of the player, financial and report requests, and time parsing are not modelled. A time is an instant, and `JTime` appears only in documents this client writes.
- The error path of `ListWithdrawalsRequest.MarshalJSON` (backoffice/client.go:41-43) is not modelled: marshalling a `time.Time` fails for years outside 0 to 9999, and the model's instants have no such bound, so the serialiser always succeeds.
- BackofficeTypes.UnmarshalGroupIDs: the int8 filter inside the array branch is not modelled. It depends on how the JSON library types numbers inside `any`. As modelled, an array is accepted and leaves the receiver as it was.
- The debug print of the drawn token in the backoffice dispatcher is not modelled.
- Stale call sites: the payment-method and player endpoints call `makeRequest` with an options value that the declared dispatcher does not take. Their reply is a parameter `respond`, not the `Backoffice.Dispatch` model. `ListPaymentMethods`, `UpdatePaymentMethod`, `ListPartnerDomains` and `SetActiveDomain` return that reply unchanged, so only their requests are modelled.
- LocalPool.Pool.GetAuthToken: it returns a snapshot (index and stamped token), not a pointer into the array. Aliasing through that pointer is not modelled.
- crm `New`: the default `http.DefaultClient` is passed in as a parameter.
- crm `New`: the first-option-error abort is not modelled, because none of the package's options can fail.
- Crm.RetryCall: a body that cannot be rewound is treated as drained, so the retry sends no body. Partially drained readers are not modelled.
- The distinction between a nil and an empty slice is not modelled.
- The `fmt.Errorf` wrapping that `json.Marshal` adds around an encoder's error (`MarshalerError`) is not modelled. The payment-type error is returned as the encoder produces it.
- BackofficeEndpoints.ListWithdrawalsCall: decoding of the `Withdrawal` elements is not modelled. Beyond the element list, only which `Data` documents decode is modelled.
- BackofficeEndpoints.UnmarshalListWithdrawals is the server's reading of the request, the partner of the serialiser. The client itself has no such decoder.
- Plumbing with nothing to state is not part of this model:
  - the financial and report endpoints
  - the CRM report lists and CRM types
  - the interface files
  - the back-office and accounts `client` constructors and their options.

## Findings

| source | as written | input that shows it | evidently intended | confidence | as-written member | corrected member |
|---|---|---|---|---|---|---|
| backoffice/types.go:303-321 | the object form validates every member and appends its options to a local slice, then returns nil without assigning the receiver | `{"a":{"value":"v","text":"t"}}` decoded into an empty receiver: no error, receiver still empty | the receiver holds the collected options, as the array form's `*f = opts` does | not executed | BackofficeTypes.UnmarshalFieldOptionsAsWritten | BackofficeTypes.UnmarshalFieldOptions |
