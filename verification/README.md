# gotoken token manager: a Dafny model

This project models the core of the `oauth` package of gotoken. A
`TokenManager` fetches an OAuth client-credentials token in a background
loop and renews it on a schedule. Callers read the current token or apply it
as an `Authorization` header. `ClientCredentialsProvider.GetNewToken` builds
the token request and turns the HTTP outcome into a token or an error.

Modules, following the two source files:

- `Token` (`pkg/oauth/token.go`): the `TokenResponse` record, the posted form
  parameters, and the success and error paths of `GetNewToken`. The HTTP
  layer and the JSON decoder are function parameters: `transport` maps the
  request to an `Exchange`, and `decode` maps a body to a token or an error.
  Go visits `ExtraParams` in an unspecified order, so that order is an input.
  The form is proved not to depend on it.
- `Config` (`pkg/oauth/manager.go`): the defaults, and the functional options
  folded over them from left to right.
- `Lifecycle` (`pkg/oauth/manager.go`): the `run` loop as pure step functions,
  one per event. The events are `AcquireFailed`, `AcquireOk(token)` and
  `TimerElapsed`. The readiness channel is a `Gate`: a generation number and
  a closed flag. A caller waiting on a gate is `Released` once that gate's
  generation has been closed.
- `Access` (`pkg/oauth/manager.go`): `GetToken`, `GetFullToken`,
  `GetAuthorizationHeader`, `ApplyToRequest`, `WaitForToken` and
  `EnsureValidToken`, as functions of the manager state. A request is its
  header map.
- `Traces`: runs of the loop from `NewTokenManager`. The theorem `Reachable`
  shows that every reachable state is determined by the options and the events: the
  stored token is the last one acquired, the callback saw every acquired
  token once and in order, and the gate is closed exactly while the loop
  waits for its refresh timer. `ProviderEvent` turns the result of
  `Token.GetNewToken` into the loop's event, which connects the two files.

The loop has three phases: `Acquiring`, `RetryPause(pause)` (the 5 s sleep
after a failure) and `Waiting(delay)` (the sleep until the next refresh). Publishing
a token happens inside the `AcquireOk` step. A `TimerElapsed` ends either
sleep. Only the end of the refresh wait installs a fresh, open gate.

Behaviour the model makes explicit:

- The loop replaces the gate when the refresh timer fires, before it calls the
  provider again. During a renewal, and during any retries, a new
  `WaitForToken`/`EnsureValidToken` call blocks. Meanwhile `GetToken` still
  returns the previous token (`RenewalBlocksNewWaiters`, `Reachable`).
- In reachable states the gate is always open when a token arrives. So the
  "already closed" branch of the signalling `select` is never taken
  (`GateClosedBeforeReplaced`).
- The expiry-based schedule is not monotone in the token's lifetime. Expiry
  minus buffer equal to 0 renews at once, while a slightly shorter token
  waits 5 s (`ExpiryScheduleNotMonotone`).
- The code does not reject a negative buffer or refresh time. The model
  follows the code and accepts any value.

Durations are nanoseconds, as in Go's `time.Duration`, held in unbounded
integers.

## Model

| member | source | states |
|---|---|---|
| Token.StandardParams | pkg/oauth/token.go:40-47 | grant_type is client_credentials; client_id and client_secret carry the provider's values; scope is present iff the provider's scope is non-empty, and then has that value; no other key |
| Token.SetEachOverlays | pkg/oauth/token.go:50-52 | setting the extras one key at a time, in any visiting order, equals overlaying the visited extras on the form with replace semantics |
| Token.FormParams | pkg/oauth/token.go:40-52 | the posted form is the standard parameters overridden by every extra parameter, independent of the map's iteration order |
| Token.FormParamsContents | pkg/oauth/token.go:50-52 | every extra key ends with the extra value, even grant_type, client_id, client_secret and scope; every other key keeps its standard value and no key is added |
| Token.FormWithoutExtras | pkg/oauth/token.go:40-47 | without extras the three credential keys are always sent, and scope is sent iff the scope is non-empty, with that value |
| Token.FormIndependentOfRangeOrder | pkg/oauth/token.go:50-52 | two iteration orders over ExtraParams give the same form |
| Token.GetNewToken | pkg/oauth/token.go:54-87 | success iff the response is 200, its body is read and it decodes; the token is then exactly the decoded one; each failure path (request build, send, read, status, decode) gives its own error and no token |
| Token.NonOkStatusIsError | pkg/oauth/token.go:77-79 | any status other than 200 is an error whatever the body and decoder |
| Token.DecodedTokenReturned | pkg/oauth/token.go:81-87 | a 200 response whose body decodes to a token returns exactly that token |
| Config.Defaults | pkg/oauth/manager.go:32-37 | defaults are a 60 s buffer, a 59 min refresh time and no callback |
| Config.Apply | pkg/oauth/manager.go:52-71 | each option writes its own field and leaves the other two unchanged |
| Config.ApplyAllSnoc | pkg/oauth/manager.go:40-42 | applying a list followed by one more option is applying that option to the list's result |
| Config.ApplyAllAppend | pkg/oauth/manager.go:40-42 | option lists compose: a + b is b applied after a |
| Config.LastOptionWins | pkg/oauth/manager.go:40-42 | each field ends with the value of the last option touching it, found by scanning from the right, or its starting value if none does |
| Config.LastWriterIndex | pkg/oauth/manager.go:40-42 | the right-to-left scan finds the option at index i when no later option touches that field |
| Config.LastIndexWins | pkg/oauth/manager.go:31-42 | if option i sets a field and no later option does, the constructed manager has option i's value |
| Config.NoOptionsGiveDefaults | pkg/oauth/manager.go:31-42 | with no options the manager has a 60 s buffer, a 59 min refresh time and no callback |
| Lifecycle.NewTokenManager | pkg/oauth/manager.go:31-46 | a new manager has the options applied to the defaults, no token, an open gate, an empty callback log, and its loop about to acquire |
| Lifecycle.Signal | pkg/oauth/manager.go:92-96 | signalling leaves the gate closed in the same generation |
| Lifecycle.SignalIdempotent | pkg/oauth/manager.go:92-96 | signalling twice is signalling once; signalling a closed gate is a no-op |
| Lifecycle.FreshGate | pkg/oauth/manager.go:123-126 | the next gate is open and one generation newer |
| Lifecycle.RenewalDelay | pkg/oauth/manager.go:104-116 | the delay is never negative |
| Lifecycle.FixedIntervalIgnoresToken | pkg/oauth/manager.go:105-108 | a positive refresh time is the delay exactly, whatever the token's expiry or the buffer |
| Lifecycle.ExpiryBasedDelay | pkg/oauth/manager.go:109-116 | otherwise the delay is expiry·1s − buffer when that is ≥ 0, and 5 s when it is negative; a zero difference is not raised |
| Lifecycle.ExpiryScheduleRenewsBeforeExpiry | pkg/oauth/manager.go:109-116 | with a non-negative buffer and a token that outlives it, renewal comes exactly one buffer before the reported expiry |
| Lifecycle.ExpiryScheduleNotMonotone | pkg/oauth/manager.go:109-116 | with an expiry-based schedule (refresh time ≤ 0) and the default 60 s buffer, a 60 s token is renewed after 0 s but a 59 s token after 5 s |
| Lifecycle.OnAcquireFailed | pkg/oauth/manager.go:79-84 | a failed acquisition leaves the token, gate, callback log and configuration unchanged and enters a retry pause of exactly 5 s |
| Lifecycle.OnAcquireOk | pkg/oauth/manager.go:86-116 | a success stores exactly the new token, closes the current gate, appends the token to the callback log once iff a callback is set, and schedules a wait of exactly the renewal delay for the new token, which is never negative |
| Lifecycle.OnTimerElapsed | pkg/oauth/manager.go:82-126 | the end of a sleep (the retry sleep at line 82-83 or the refresh timer at line 118-126) keeps the token and log and returns to acquiring; after a refresh wait the gate is replaced by an open gate one generation newer, after a retry pause it is kept |
| Lifecycle.Step | pkg/oauth/manager.go:76-127 | no step changes the configuration, removes a stored token or moves the gate generation backwards |
| Lifecycle.FailureThenRetryKeepsState | pkg/oauth/manager.go:79-84 | a failure sleeps exactly 5 s, and after that pause the loop is in exactly the state it had before the attempt |
| Lifecycle.ReleaseIsPermanent | pkg/oauth/manager.go:123-133 | a caller released from its gate stays released whatever the loop does next; a waiter is never moved to a newer gate |
| Lifecycle.RenewalBlocksNewWaiters | pkg/oauth/manager.go:123-133 | after the refresh timer fires, the old token is still stored but a caller starting to wait is not released |
| Access.GetToken | pkg/oauth/manager.go:136-143 | "" without a token, else the access token |
| Access.GetFullToken | pkg/oauth/manager.go:146-150 | the whole stored token (type, expiry, scope and access token), absent before the first; its access token is what GetToken returns |
| Access.GetAuthorizationHeader | pkg/oauth/manager.go:159-165 | "" iff no token; otherwise token type, one space, then the access token |
| Access.SplitJoined | pkg/oauth/manager.go:164 | splitting type + " " + token at the first space gives back the type and the token when the type has no space |
| Access.AuthorizationHeaderRoundTrip | pkg/oauth/manager.go:159-165 | when the token type contains no space, the header value parses back into the stored token type and access token (a type with a space does not, see SpacedTokenTypeMisparses) |
| Access.SpacedTokenTypeMisparses | pkg/oauth/manager.go:164 | the type is concatenated unchecked: type "a b" with token "x" gives "a b x", which splits at the first space into "a" and "b x" |
| Access.ApplyToRequest | pkg/oauth/manager.go:168-173 | Authorization is set to the header value exactly when a token is stored; otherwise the request is unchanged; no other header is touched |
| Access.WaitForToken | pkg/oauth/manager.go:131-133 | the caller takes the gate installed at the moment of the call (the current generation), and is released at once iff that gate is closed |
| Access.EnsureValidToken | pkg/oauth/manager.go:153-156 | returns exactly when the caller's gate is released, and never with an error |
| Traces.Reachable | pkg/oauth/manager.go:76-127 | after any run: configuration = resolved options; token = last acquired; callback log = all acquired tokens in order (iff a callback is set); gate generation = number of refresh timers; gate closed iff waiting for the refresh timer |
| Traces.RenewalNeedsSuccess | pkg/oauth/manager.go:118-126 | helper over the reference functions: a positive count of refresh timers implies an `AcquireOk` in the events; it supplies the generation-above-0 case of NoFalseReadiness |
| Traces.NoFalseReadiness | pkg/oauth/manager.go:91-96 | no caller is released before some acquisition succeeded, and a released caller finds a stored token |
| Traces.FixedScheduleEveryGeneration | pkg/oauth/manager.go:104-108 | with a positive refresh time every scheduled wait of every generation equals it |
| Traces.GetTokenIsLatest | pkg/oauth/manager.go:86-89 | callers read the whole most recently acquired token (none before the first), its access token from GetToken, and "" for the token and header before the first |
| Traces.CallbackOncePerToken | pkg/oauth/manager.go:98-101 | the callback is invoked once per successful acquisition, in order, when set, and never otherwise |
| Traces.NoSuccessKeepsToken | pkg/oauth/manager.go:79-84 | any run of failures and timers keeps the stored token and the callback log |
| Traces.TokenNeverRemoved | pkg/oauth/manager.go:86-89 | once a token is stored, every later state has one |
| Traces.ProviderEvent | pkg/oauth/manager.go:79-88 | the loop sees a successful acquisition exactly when the provider returned a token, and it carries that token |
| Traces.ClientCredentialsAttempt | pkg/oauth/manager.go:79-101 | with the client-credentials provider, a successful request stores exactly the decoded token and closes the gate; a failed one keeps the token and gate and pauses 5 s |
| Traces.GateClosedBeforeReplaced | pkg/oauth/manager.go:92-126 | in every reachable state a refresh wait has a closed gate and acquiring has an open one, so a timer that installs a new generation only ever replaces a closed gate and a token never arrives at a closed gate |
| Traces.WaiterProgress | pkg/oauth/manager.go:92-133 | a caller on gate g is either released, or still faces the same gate outside the refresh wait; once any acquisition in the run succeeds it is released |
| Traces.WaiterReleasedBySuccess | pkg/oauth/manager.go:92-156 | a caller that starts waiting in a reachable state is released, and EnsureValidToken returns nil, as soon as any later acquisition succeeds |
| Traces.EnsureThenApplySetsHeader | pkg/oauth/manager.go:153-173 | after EnsureValidToken has returned, ApplyToRequest sets Authorization in every later state |

## Left out

- The goroutine, the `sync.RWMutex` and real blocking are concurrency and are not modelled. Each event is one atomic step. Reads are functions of a state. A blocked call is an observation (`Blocked`) of a state, not real waiting. The unsynchronised read of `tokenReady` is the caller taking the current gate generation.
- `time.Sleep`, `time.NewTimer` and the clock are not modelled. Both sleeps are durations held in the phase (`RetryPause(pause)`, `Waiting(delay)`). The end of a sleep is the `TimerElapsed` event.
- Traces.TokenNeverRemoved: a provider that returns a nil token with a nil error is not modelled, since `AcquireOk` always carries a token. The code would store nil, removing the stored token. It would close the gate with no token, call the callback with nil, and dereference nil when the refresh time is not positive. The only provider in the source, `ClientCredentialsProvider`, never does this (see `Traces.ProviderEvent`).
- Traces.NoFalseReadiness: the "released caller finds a stored token" half assumes the same non-nil provider result as the line above.
- Nil arguments are not modelled. `ManagerOption`, the abstract provider and `Header` have no nil value. The code panics on a nil option in `NewTokenManager` (manager.go:41). A nil provider makes the `run` goroutine panic at manager.go:79, which ends the process. `ApplyToRequest(nil)` panics at manager.go:171 once a token is stored, and returns silently before that.
- Access.GetFullToken: the model uses value semantics. The source hands out the stored `*TokenResponse`, so a caller or the callback can mutate it and change what later `GetToken` calls return.
- `log.Printf` output is not modelled; it has no effect on state.
- The HTTP client is not modelled: `http.NewRequest`, the default `http.Client`, the Content-Type header, `url.Values.Encode`, `ioutil.ReadAll` and `json.Unmarshal` are library calls. They are the `transport` and `decode` parameters of `GetNewToken`.
- Token.GetNewToken: errors carry their kind, status, body and the underlying reason, not the formatted `fmt.Errorf` message text.
- Lifecycle.RenewalDelay: `time.Duration(ExpiresIn)*time.Second` can overflow int64 in Go; the model uses unbounded integers.
- Access.ApplyToRequest: HTTP header key canonicalisation is not modelled. The only key written, `Authorization`, is already canonical.
- The `onNewToken` callback's code is not modelled, so a panicking or blocking callback is not either. The model records each invocation in `callbackLog`.
- `cmd/gotoken/main.go` is demo wiring with network calls and no logic of its own. Its usage pattern is the subject of `Traces.EnsureThenApplySetsHeader`.
- There is no cancellation or shutdown of the loop, and no validation of options: the code has neither.
