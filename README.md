# Supabase Go client façade: credential lifecycle model

This project models the client façade of the supabase-go library in Dafny. The façade is one handle that owns:

- the project URL and database schema,
- the outbound header map,
- four sub-clients: the query builder ("rest"), storage, auth and functions.

The model covers how the façade's credential state is built and changed, using these modules:

- `Supabase` (`client.dfy`) holds the `Client` class. Its fields are those of the Go struct: `url`, `headers` and `schema` from the options record, plus the four sub-client handles. A static method models construction. Methods with `modifies this` model sign-in, refresh, propagation of a new session (`UpdateAuthSession`), one iteration of the background refresh loop, and a finite run of that loop. Each method is tied to a pure function of the state snapshot `ClientState`, such as `Initial`, `Propagated`, `AfterRounds` or `CopyOf`. The properties are proved about those functions.
- `TokenRefresh` (`token_refresh.dfy`) holds the loop's decision logic as pure functions over an abstract clock counted in nanoseconds:
  - the pre-refresh wait, `(remaining / 4) * 3` with Go's truncating division, slept only when positive;
  - the backoff: `2^attempt` seconds while `attempt <= 3`, then 30 seconds;
  - the reset after a success.
  `Step` is one iteration. `Trace` and `Final` run a sequence of iterations.
- `SubClients` (`sub_clients.dfy`) reduces each external client library to an opaque handle. The query-builder handle records its base URL, schema, headers and token. The storage and functions handles record base URL, token and headers. The auth handle records the project URL, API key, an optional custom auth URL and the token.
- `AuthTypes` (`auth_types.dfy`) holds the session and the auth library's reply.
- `GoRuntime` (`go_runtime.dfy`) models the Go behaviour the code relies on:
  - writes into a nil map panic;
  - `for range` over a map copies entries in an unspecified order;
  - `/` truncates toward zero;
  - `1 << n`.
- `Wrappers` (`wrappers.dfy`) holds Option and Result.

The auth server's answers and the clock readings are parameters:

- Sign-in and refresh methods take an `AuthReply`: the session granted, or the error message.
- Each loop iteration takes a `Round`: the clock at the top of the iteration, the reply to the refresh request, and the clock when line 143 reads `time.Now()`.

The header map is held by value. Go shares one map by reference between the façade and the sub-clients. The model captures the effect of that sharing by rebuilding storage and functions from the updated map, as `UpdateAuthSession` does.

Behaviour of the code worth knowing, which a reader might expect to be otherwise:

- The code does not reject a session whose `ExpiresIn` is not positive, neither the one the loop starts with nor one a refresh returns. Its first iteration and every retry until a new session arrives skip the wait. `NonPositiveStartSkipsWait` states this for the starting session, and `NonPositiveLifetimeSkipsWait` for an adopted one.
- Retries are not spaced by the 2 s, 4 s and 8 s backoff alone. After a failure the loop goes back to the wait with the same expiry, so each retry sleeps the backoff and then three quarters of the time still left; `RetriesWaitAgain` states this.
- The loop has no cancellation and no lock.
- The code propagates in this order: auth, query builder, Authorization header, storage, functions.
- The code's `WithToken` cannot produce a copy (see Findings).

## Model

| member | source | states |
|---|---|---|
| GoRuntime.StoreAll | client.go:58-62 | Copying a map into an allocated map gives the union of the keys. Each copied entry wins over the entry already there. Other entries are kept. Copying a non-empty map into a nil map panics at the first write. |
| GoRuntime.Store | client.go:60 | A map write `m[k] = v` panics exactly when the map is nil. Otherwise it adds or replaces `k` with `v` and keeps every other entry. The same write occurs at lines 160, 173 and 175. |
| GoRuntime.Shl1 | client.go:131 | The value of `1 << n`, which exceeds `n`. |
| GoRuntime.Shl1Monotone | client.go:131 | A wider shift gives a value no smaller: `m <= n` implies `1 << m <= 1 << n`. |
| GoRuntime.Quo | client.go:120 | Go's division of a duration by 4: the quotient truncated toward zero, for negative remaining times as well. |
| Supabase.Initial | client.go:47-81 | Construction fails exactly when url or key is empty, with the message "url and key are required". On success: every caller header has the caller's value. Authorization is `Bearer <key>` and apikey is `key` unless the caller overrides them. No other header keys exist. The schema is the caller's non-empty schema, otherwise "public". The sub-clients sit at url + /rest/v1, /storage/v1, /auth/v1 and /functions/v1. Storage and functions carry `key`. |
| Supabase.Client.NewClient | client.go:47-81 | Refuses exactly an empty url or key, returning no client. Otherwise it returns a fresh façade whose state is `Initial`. The headers are merged by the range-copy loop. |
| Supabase.Propagated | client.go:157-163 | After propagating a session, the Authorization header is `Bearer <accessToken>`. The query-builder, auth, storage and functions tokens all equal the access token. url, schema and every other header entry are unchanged. Storage and functions are rebuilt below url from the updated headers. |
| Supabase.PropagatedLastWins | client.go:157-163 | Propagating two sessions in a row leaves the same state as propagating only the second. |
| Supabase.PropagatedIdempotent | client.go:139-140 | Propagating the same session twice equals propagating it once. The loop does this on every success: once inside RefreshToken, once itself. |
| Supabase.Client.UpdateAuthSession | client.go:157-163 | The new façade state is `Propagated(old state, session)`. |
| Supabase.Client.SignInWithEmailPassword | client.go:95-103 | On error: returns the empty session and the error, and leaves the façade unchanged. On success: returns the reply's session, and the state becomes `Propagated` of it. |
| Supabase.Client.SignInWithPhonePassword | client.go:105-112 | Same error and success behaviour as the e-mail sign-in. |
| Supabase.Client.RefreshToken | client.go:148-155 | Same error and success behaviour as the sign-in wrappers. |
| Supabase.Client.RefreshRound | client.go:119-144 | One iteration matches `Step`. A failure leaves the façade unchanged. A success leaves the façade propagated once with the new session, despite the double call. |
| Supabase.Client.EnableTokenAutoRefresh | client.go:114-146 | Running the loop from `(attempt 0, session, start + ExpiresIn s)` through any finite sequence of rounds yields exactly `Trace` of those rounds. The façade ends propagated with the latest granted session, or unchanged if none was granted. |
| TokenRefresh.Started | client.go:116-117 | The loop starts with a zero counter, the given session, and an expiry `ExpiresIn` seconds after the start clock. |
| TokenRefresh.PreRefreshWait | client.go:120 | The wait is `(expiresAt - now) / 4 * 3`, with Go's truncating division. |
| TokenRefresh.BackoffDelay | client.go:128-135 | The backoff after the `attempt`-th failure is `2^attempt` seconds while `attempt <= 3`, otherwise 30 seconds. For every failure it lies between 2 s and 30 s. |
| TokenRefresh.Step | client.go:119-144 | One iteration always sends the current session's refresh token, and sleeps before the request only for a positive wait. Exactly a refusal backs off; it keeps session and expiry and adds one to the counter. A success adopts the new session with the counter at 0. |
| TokenRefresh.Trace | client.go:119-144 | The loop never exits: every round, success or failure, yields exactly one outcome and a successor state. |
| TokenRefresh.TraceSnoc | client.go:119-144 | Running one more round appends that round's step to the trace and to the final loop state. |
| TokenRefresh.TraceAt | client.go:119-144 | The `i`-th iteration is the step taken from the loop state that the first `i` rounds lead to. |
| TokenRefresh.WaitBounds | client.go:120-123 | The wait is slept exactly when at least 4 ns remain, and never once the expiry has passed. For a non-negative remaining time, 4·wait ≤ 3·remaining < 4·wait + 12. For a positive remaining time, the wait is strictly less than the remaining time. |
| TokenRefresh.HourSessionFirstWait | client.go:116-123 | For a session with ExpiresIn 3600, the first wait is exactly 2700 seconds when the first iteration reads the start clock (line 120 reads it again after line 117). If the clock has moved on by `d` within the hour, the wait is three quarters of `3600 s - d`, rounded down by less than 3 ns. |
| TokenRefresh.FailureStreak | client.go:125-137 | Each failure increments the attempt counter. The i-th failure backs off `BackoffDelay(attempt + i + 1)`. Session and expiry stay unchanged, so every retry sends the same refresh token. |
| TokenRefresh.BackoffSchedule | client.go:128-135 | From a zero counter, consecutive failures sleep 2 s, 4 s and 8 s. Every failure from the fourth on sleeps 30 s. |
| TokenRefresh.RecoveryAfterFailures | client.go:139-143 | A success after any failure streak resets the counter to 0 and adopts the new session. Its expiry is `finishedAt + ExpiresIn s`. The round has no backoff, and its request still sent the streak's refresh token. |
| TokenRefresh.RetriesWaitAgain | client.go:120-136 | Through a failure streak, every iteration waits three quarters of the time left until the streak's unchanged expiry, if that is positive. |
| TokenRefresh.NonPositiveStartSkipsWait | client.go:116-136 | A starting session with ExpiresIn ≤ 0 is scheduled anyway. Its first iteration and every retry until the first success skip the wait, as long as the clock does not go back before the start. |
| TokenRefresh.NonPositiveLifetimeSkipsWait | client.go:120-143 | After adopting a session with ExpiresIn ≤ 0, the next iteration and every retry until the next success skip the wait, as long as the clock does not go back. |
| Supabase.CopyOf | client.go:170-192 | A copy panics exactly when its starting header map is nil, and produces the copy exactly when that map is allocated, so it is never refused (only a nil receiver is, in `WithToken`). It panics at the first header copy (line 173), or if the source has no headers at the Authorization write (line 175). Otherwise the copy and its four sub-clients carry the token, and its query builder reads the copy's headers. It keeps the source's other headers; a key only the starting map holds keeps that map's value. Its configuration is whatever it started with. |
| Supabase.CopyWithToken | client.go:170-192 | Running the copy's statements (range-copy, Authorization override, sub-client construction) from a given start yields `CopyOf`. |
| Supabase.WithTokenAsWritten | client.go:165-195 | As written: a nil receiver gets "cannot copy non-initialized client". Every other receiver panics, because the copy's header map is nil. |
| Supabase.WithToken | client.go:165-195 | Corrected: a nil receiver gets the same error. Otherwise it returns a fresh façade equal to `CopyOf` started from the receiver's url and schema and a fresh map. The receiver is unchanged. |
| Supabase.CopyFromSeedSwapsToken | client.go:170-192 | The corrected copy keeps url and schema. Its headers are the source's with Authorization set to `Bearer <token>`. Its query builder, storage and functions lie below the source's url. Its auth client is the source's, bound to the token. All four carry the token. |
| Supabase.CopyFromLiteralLosesConfiguration | client.go:170-192 | Suppose the copy starts from the struct literal with only the map allocated. Its url and schema are then empty, and its sub-clients point at the bare paths /rest/v1, /storage/v1 and /functions/v1. |

## Findings

| source | as written | input that shows it | evidently intended | confidence | as-written member | corrected member |
|---|---|---|---|---|---|---|
| client.go:170-175 | The copy is the literal `&Client{}`, so its header map is nil. The first write into it panics, at line 173, or at line 175 if the receiver has no headers. | Any client returned by NewClient("https://p.supabase.co", "key", nil) | Allocate the copy's map before copying headers into it | high; not executed | Supabase.WithTokenAsWritten | Supabase.WithToken |
| client.go:170-192 | The copy's url and schema are never set. Once the map is allocated, the copy's query builder, storage and functions point at /rest/v1, /storage/v1 and /functions/v1, with an empty schema. | The same client, with line 170 given an allocated map | Copy url and schema from the receiver | high; not executed | Supabase.CopyFromLiteralLosesConfiguration | Supabase.CopyFromSeedSwapsToken |

## Left out

- The internals of the query-builder, storage, auth and functions libraries (queries, storage protocol, auth wire format, HTTP). Their code is not part of this model. Each is an opaque handle, and each auth call's answer is a parameter.
- `From` and `Rpc` (client.go:85-93): one-line delegations to the query builder with no logic of their own.
- The goroutine, `time.Sleep`, `time.Now` and `log.Printf` of the refresh loop. The clock readings are parameters of each round. Sleeps are recorded in the outcome instead of performed. Log lines are dropped.
- Concurrency between the loop and readers of the façade. The code has no synchronisation to model.
- Supabase.Client.EnableTokenAutoRefresh: runs a finite prefix of the endless loop. `Trace` states that no round ends it.
- Aliasing of the one Go header map between the façade and the sub-clients. Maps are values here. Storage and functions are rebuilt from the current map, as `UpdateAuthSession` does.
- int64 wrap-around of `ExpiresIn * time.Second` (above about 292 years) and of the attempt counter. The model's integers are unbounded.
- A zero-value `Client{}` used as a receiver of UpdateAuthSession or the sign-in wrappers. It has nil sub-clients, so calls through them would panic. These handles cannot be nil in the model.
- The e-mail, phone and password arguments. They only go to the auth library, whose reply is a parameter.
- Session fields other than the access token, refresh token and lifetime. The façade reads no others.
