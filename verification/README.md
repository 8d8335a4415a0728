# Verification of the API gateway

This project models two parts of the gateway and proves what they promise.

**The Unicode unescaper** (`helpers/unicode.go`) rewrites `\uXXXX` in logged request bodies. It is a byte scanner
with two cursors, an output buffer as long as the input, block copies, shift-or hexadecimal parsing and a twelve-byte
look-ahead for surrogate pairs. `UnescapeImpl` is that scanner over an array; `UnescapeSpec` says token by token and
with plain arithmetic what it computes; `UnescapeSyntax` proves which texts are escapes, against the two rows of digits
written out; `Utf8` is RFC 3629; `UnescapeTheorems` derives the algebraic laws and `UnescapeUnits` compares the scanner
with one that keeps doubled backslashes.

**The gateway** decides which requests reach a backend: a chain of middlewares, each calling a service that may answer
from an expiring cache. It is modelled three times and the models are tied together:

- imperatively, one operation at a time: `Caching.Cache`, `Request.Context`, `Settings.NewUserAuthentication`,
  `Services` (the repositories and services), `Pipeline.Chain`, `Pipeline.Enter` and `Pipeline.Serve` (the middlewares as
  they run), `Assembly.Locator`, `Metadata.WriteMetadata`;
- as functions of what the collaborators answer: `Pipeline.Handle` and the declarative `Pipeline.Policy`;
- as a state machine (`Gateway`): any number of requests, each at its own middleware and inside its own service call,
  interleaved with each other, the clock, the cleaner and config reloads. Cache read, remote call and cache write of one
  service call are three separate steps. A log records every answer of an authority, every cache fill and hit, every count
  and every run of the proxy. `GatewayInvariants` and `GatewaySteps` prove an invariant of every reachable state;
  `GatewayTheorems` (who reaches the proxy, where answers come from), `GatewayQuota`, `GatewayCalls` (who is asked what),
  `GatewayRuns` (which configuration applies), `GatewayProgress` and `GatewayCleaning` draw the conclusions. They speak of
  what a request presents, of the configuration it runs under and of the log.

## Assumptions

- The clock does not go back (`Caching.ClockMustNotGoBack` shows why the cleaner needs this).
- Encoding cached data as JSON and decoding it again gives the same data.
- A positive answer of an authority carries the data that the code dereferences.
- An HTTP method contains no space: it is a token (section 9.1 of RFC 9110).
- Only results about which user a cached answer belongs to depend on the configured authenticate endpoints: they hold for
  an endpoint that can be told apart from all configured ones (`GatewayInvariants.Distinct`). This is weaker than
  forbidding colons, and `Keys.UserKeysApart` proves that it is exactly the condition under which two endpoints do not mix
  their tokens. Everything else holds for all configurations.
- The proxy returns with a result or an error; see EveryRequestIsAnswered under "Left out".
- The lock service counts by key. Counts stay below 2^63, so that the conversion in `repository/locker.go:40` keeps them.

## Where the code differs from what one might expect

- The unescaper does not treat a doubled backslash as a unit (`NotAware`); `DoubledBackslash` gives the exact condition:
  no escape of the input stands after an odd number of backslashes.
- It emits unpaired surrogates as three bytes (`NotUtf8`). Output is valid UTF-8 exactly when no position holds
  one (`Utf8Preserved`).
- Unescaping twice is not always unescaping once (`NotIdempotent`); `IdempotentWhen` gives the exact condition on the input.
- Unescaping a concatenation is not always the concatenation (`NotDistributive`); `ConcatenationLaw` gives the exact
  condition.
- gRPC metadata can depend on the iteration order of a map (`SpellingsClash`); `OrderIndependence` gives the exact condition.
- A user answer without a header map makes `writeMetadata` write into a nil map (`NilHeaders`); `WriteMetadata` returns None
  exactly then.

## Model

| member | source | states |
|---|---|---|
| UnescapeImpl.UnescapeUnicode | helpers/unicode.go:25-57 | for every input the two-cursor loop with block copies terminates, stays inside both buffers and returns the token-level unescaping |
| UnescapeImpl.ParseHex4 | helpers/unicode.go:85-95 | shift-or over four digits gives their base-16 value, and fails exactly when one is not a digit |
| UnescapeImpl.DecodeUnicodeEscape | helpers/unicode.go:66-82 | value and length of the escape at the head, surrogate pairs joined arithmetically; -1 for bad digits |
| UnescapeImpl.EscapeHere | helpers/unicode.go:41-48 | a decoded value is shorter than the escape it replaces, so the write window stays behind the read cursor |
| UnescapeImpl.CopyPlain | helpers/unicode.go:31-39 | the block up to the next backslash is copied unchanged |
| UnescapeImpl.AppendRuneAt | helpers/unicode.go:111-133 | writes exactly the UTF-8 of the value at the cursor and nothing before it changes |
| UnescapeImpl.LeadByte | helpers/unicode.go:117-129 | the or-ed marker and top bits are the lead byte of RFC 3629 |
| UnescapeImpl.TailByte | helpers/unicode.go:118-130 | the masked low bits under the marker are the continuation byte of RFC 3629 |
| Bits.JoinHalves | helpers/unicode.go:73-78 | joining the halves of a pair by shift and or is multiplication and addition |
| UnescapeSyntax.HexDigitsExact | helpers/unicode.go:97-108 | a symbol is the digit d if and only if it is the d-th character of `0123456789abcdef` or of its upper-case row; nothing else is a digit |
| UnescapeSyntax.EscapesExact | helpers/unicode.go:60-95 | an escape of v stands at a position if and only if one of the printings of v stands there |
| UnescapeSyntax.EscapeTextSpelled | helpers/unicode.go:60-62 | a printing is a backslash, a lower-case `u` and the four digits of the number, most significant first |
| UnescapeSyntax.LettersKept | helpers/unicode.go:66-70 | `\users` stays as it is |
| UnescapeTheorems.BytesAreChars | helpers/unicode.go:25-57 | unescaping the bytes of a text is unescaping its code points |
| UnescapeTheorems.Utf8Preserved | helpers/unicode.go:25-133 | valid UTF-8 in: valid UTF-8 out if and only if no position holds the escape of half a surrogate pair without the other half next to it, and then the code points are the unescaped code points |
| UnescapeTheorems.LoneIsUnpaired | helpers/unicode.go:72-81 | the surrogates the scanner leaves unpaired are those whose other half is not next to them, for all inputs |
| UnescapeTheorems.NotUtf8 | helpers/unicode.go:66-82 | an unpaired surrogate in valid input whose output is not valid UTF-8 |
| UnescapeTheorems.RoundTrip | helpers/unicode.go:25-57 | any scalars printed with any subset escaped, either hex case, pairs above U+FFFF and every backslash escaped, come back as their UTF-8 |
| UnescapeTheorems.LengthAccounting | helpers/unicode.go:26-27 | how much shorter the output is, exactly, and at least 3 bytes per single escape and 8 per pair |
| UnescapeTheorems.FixedPoint | helpers/unicode.go:25-57 | the output equals the input if and only if the input has no escape |
| UnescapeTheorems.IdempotentWhen | helpers/unicode.go:25-57 | a second pass changes nothing if and only if at no position of the input the next six shown symbols, escapes read as their numbers, spell an escape |
| UnescapeTheorems.IdempotentAboveAscii | helpers/unicode.go:30-54 | in particular when every decoded value is at least 0x80, unpaired surrogates included |
| UnescapeTheorems.NotIdempotent | helpers/unicode.go:25-57 | an input on which a second pass changes the result |
| UnescapeTheorems.ConcatenationLaw | helpers/unicode.go:60-79 | unescaping distributes over appending anything to `a` if and only if from no position on what is left of `a` is the beginning of a token |
| UnescapeTheorems.NotDistributive | helpers/unicode.go:60-62 | two halves of an escape, unescaped apart and together |
| UnescapeTheorems.QuietTail | helpers/unicode.go:41-79 | in particular when the last eleven bytes hold no backslash |
| UnescapeUnits.DoubledBackslash | helpers/unicode.go:30-54 | a doubled backslash is kept as a unit if and only if no escape stands after an odd number of backslashes; otherwise the output is shorter than it should be |
| UnescapeUnits.ShadowedIsOdd | helpers/unicode.go:60-62 | the escapes read from the second half of a doubled backslash are those after an odd number of backslashes |
| UnescapeUnits.NotAware | helpers/unicode.go:41-53 | an escaped backslash followed by letters that is decoded all the same |
| Utf8.EncodeAllValid | helpers/unicode.go:111-133 | encoded text is valid under section 4 of RFC 3629 if and only if it has no surrogate, and decodes to itself |
| Utf8.DecodeEncodes | helpers/unicode.go:111-133 | every valid byte sequence is the encoding of the scalars it decodes to |
| Caching.Cache.Get | cache/cache.go:26-40 | the item up to and including its deadline |
| Caching.Cache.Set | cache/cache.go:42-50 | the key holds the data until now plus lifetime; no other key changes |
| Caching.Cache.Cleanup | cache/cache.go:68-78 | in whatever order they are visited, a key stays if and only if its deadline has not passed, with its item unchanged |
| Caching.CacheRefinesLog | cache/cache.go:26-50 | after any history a key answers with its latest Set exactly until that Set's deadline |
| Caching.CleaningIsInvisible | cache/cache.go:68-78 | cleaner steps anywhere in a history change no present or future Get |
| Caching.ClockMustNotGoBack | cache/cache.go:68-78 | a history with a clock going back in which the cleaner is visible |
| Keys.RequestKeyInjective | service/authorization.go:33 | id, method and path can be read off the authorization key |
| Keys.AuthorizationKeyInjective | repository/authorization_cache.go:35-37 | id and text can be read off the key for all integers and texts |
| Keys.UserKeysApart | repository/user_authentication_cache.go:62-64 | two endpoints never share a key for different tokens if and only if neither continues the other at a colon |
| Keys.UserKeyCollision | repository/user_authentication_cache.go:62-64 | tokens with a common key for any endpoints that do |
| Keys.ColonFreeSeparate | repository/user_authentication_cache.go:62-64 | colon-free endpoints are always apart |
| Keys.DailyKeyInjective | service/daily_limit.go:47-50 | application, year, month and day can be read off the daily key |
| Keys.KeysSpelled | service/daily_limit.go:47-50 | one key of each kind, character by character |
| Keys.NoLeadingZero | repository/authorization_cache.go:35-37 | numbers in keys are written without leading zeros |
| Settings.FromConfig | service/user_authentication.go:219-234 | a provider is built if and only if its kind is known and its part is there, and carries the configured name, header or cookie name and validate flag |
| Settings.NewUserAuthentication | service/user_authentication.go:44-101 | succeeds if and only if names are unique, providers well formed and references resolved; then holds exactly the listed modules, each with its own list's setting; otherwise names the first fault |
| Settings.BlameUnique | service/user_authentication.go:49-94 | a faulty configuration has exactly one first fault: index, kind and name of the error are determined |
| Settings.BuildProviders | service/user_authentication.go:49-61 | the provider loop succeeds if and only if all names differ and every provider is well formed |
| Settings.ResolveProviders | service/user_authentication.go:65-76 | the listed providers in configured order, or the first name that is not configured |
| Settings.PlaceModules | service/user_authentication.go:79-93 | one list's modules get the same setting unless a name is taken, within or across lists; the error is the first taken name |
| Settings.TableUnique | service/user_authentication.go:44-101 | a configuration determines its table |
| Settings.ExtractToken | service/user_authentication.go:135-151 | the search loop returns what scanning the providers in order gives |
| Settings.ExtractionStopsFirst | service/user_authentication.go:135-151 | the token or error is that of the first provider that is not silent; empty only if all are |
| Request.Context.Authenticate | request/context.go:63-66 | sets the application data and nothing else |
| Request.Context.GetAuthData | request/context.go:68-73 | the application data, or the error when there is none |
| Request.Context.AuthenticateUser | request/context.go:75-78 | sets the user data and nothing else |
| Request.Context.SkipAppAuth | request/context.go:87-89 | the flag of the user data, false without any |
| Request.Context.AuthenticateAdmin | request/context.go:103-107 | sets the admin and nothing else |
| Services.AuthorizationCache.Get | repository/authorization_cache.go:23-27 | whether a live entry exists under the composite key |
| Services.AuthorizationCache.SetAuthorized | repository/authorization_cache.go:29-33 | a yes under the composite key for the configured duration |
| Services.AuthenticationCache.Get | repository/authentication_cache.go:27-40 | the live entry of the token |
| Services.AuthenticationCache.Set | repository/authentication_cache.go:42-51 | the data under the token for the configured duration |
| Services.UserAuthenticationCache.Get | repository/user_authentication_cache.go:30-43 | the live entry of endpoint and token in the shared cache |
| Services.UserAuthenticationCache.Set | repository/user_authentication_cache.go:45-60 | the data under endpoint and token for the given duration |
| Services.Authorization.Authorize | service/authorization.go:32-58 | a live entry answers yes without asking; otherwise the remote decides, and only its yes is stored and answers until its deadline |
| Services.AdminService.AdminAuthorize | service/admin.go:41-62 | the same protocol by admin and permission |
| Services.Authentication.Authenticate | service/authentication.go:35-60 | the same protocol by token, keeping the application's data |
| Services.UserAuthentication.Authenticate | service/user_authentication.go:103-133 | not required, refused before any call, or the answer for the extracted token |
| Services.UserAuthentication.Ask | service/user_authentication.go:153-217 | a duration that is not positive neither reads nor writes the cache; otherwise the authority is asked exactly when no live answer is stored; the answer carries the asking setting's flag |
| Services.ThrottlingService.AllowRateLimit | service/throttling.go:33-54 | an application without a rate is allowed without asking, any other as the rate limiter says |
| Services.LockService.Increment | repository/locker.go:27-42 | one key counts up by one, also when the reply is lost |
| Services.DailyLimitService.IncrementAndCheck | service/daily_limit.go:32-45 | without a limit nothing is counted; otherwise the limit-th request passes and the next does not |
| Services.StepsAreTheCall | service/authorization.go:32-58 | left alone, the machine's cache read, call and cache write give the answer and the cache of the sequential service under the service's own key, for every application, authorization and permission call and every user call under a positive duration |
| Services.StepsAskDirectly | service/user_authentication.go:158-164 | a user call under a duration that is not positive, an admin token or a listed application's rate goes straight to the authority, and no cache changes |
| Services.UnlistedIsAllowed | service/throttling.go:33-41 | an application that is not in the throttling list is allowed and nobody is asked |
| Services.TellExact | middleware/authenticate.go:41-66 | each answer reaches the one verdict it is about, unchanged, and no other |
| Services.CountIsTheCheck | service/daily_limit.go:32-45 | the machine counts as the daily limit service does, under the daily limits of the request's own configuration |
| DailyLimits.NewLimits | service/daily_limit.go:21-30 | the loop builds the limits of the configuration; throttling has the same loop |
| DailyLimits.LastEntryWins | service/daily_limit.go:21-30 | the limit in force is that of the application's last entry in the list, and there is one if and only if there is such an entry |
| DailyLimits.UnlistedUnlimited | service/daily_limit.go:21-36 | an application is limited if and only if it is listed |
| Pipeline.Chain | middleware/middleware.go:20-25 | the downward loop nests the middlewares in list order around the root |
| Pipeline.Enter | middleware/authenticate.go:22-66 | each middleware on a live context stops or passes, and changes the context, as its decision says |
| Pipeline.Serve | middleware/error_handler.go:15-34 | running nested handlers on a live context and writer gives the reply of the composed handler |
| PipelineTheorems.HandleUnwinds | middleware/middleware.go:20-25 | stepping through the middlewares one at a time computes what the composed handler computes |
| PipelineTheorems.AuthChainReply | assembly/locator.go:129-148 | the reply is the first closed gate's refusal or the proxy's result |
| PipelineTheorems.PolicyIsAllGates | assembly/locator.go:129-148 | the policy holds if and only if no gate is closed |
| PipelineTheorems.StatusOfGates | middleware/error_handler.go:15-34 | the first closed gate writes the status of the first rule the request breaks: 401, 403, 429 or 500 |
| PipelineTheorems.ChainIsPolicy | assembly/locator.go:129-148 | the proxy runs exactly once under the policy and never otherwise; a refusal writes, once, the 401, 403, 429 or 500 of the first rule that is broken |
| PipelineTheorems.SkipChainForwards | assembly/locator.go:151-165 | a SkipAuth location forwards every request whose body can be read |
| PipelineTheorems.OrderInvariant | assembly/locator.go:129-148 | what a request carries at each place of the chain: each kind of data has one writer |
| PipelineTheorems.AuthDataAlwaysThere | middleware/authorize.go:21-28 | the "get auth data" errors of Authorize, Throttling and DailyLimit cannot occur in this order |
| PipelineTheorems.SkipAppAuthConstant | request/context.go:87-89 | the flag does not change after UserAuthenticate |
| Assembly.BuildHandlers | assembly/locator.go:100-165 | one chain per location, by its SkipAuth flag, or the first unsupported protocol |
| Assembly.Locator.Handler | assembly/locator.go:62-182 | succeeds if and only if settings and protocols are fine; new application and authorization caches each time, one shared user cache |
| GatewaySteps.Reachable | service/authorization.go:32-58 | the invariant holds after every interleaving of requests, clock, cleaner and reloads |
| GatewaySteps.SameKeySameQuery | repository/authorization_cache.go:35-37 | within one cache a key belongs to one question, across all generations sharing it; for users if the endpoint can be told apart |
| GatewaySteps.DistinctExact | repository/user_authentication_cache.go:62-64 | a user question can be told apart if and only if its endpoint has no key in common with a configured endpoint other than for the same endpoint and token |
| GatewaySteps.HitIsBacked | cache/cache.go:26-40 | a hit returns what the latest fill of the same cache under the same key stored, while it lives |
| GatewaySteps.FillIsBacked | service/authorization.go:50-55 | what is stored was granted to the storing request itself, which the fill event names |
| GatewayTheorems.ProxySafety | assembly/locator.go:129-148 | whenever the proxy runs on an authenticated location the policy holds and the log already shows a grant for every gate that applied: own answer or the latest live cache fill under the same key, admin bypass included. The application grant is for the token parameter, or else for the password of basic authentication whose name it carries; listed applications passed the limiter and were counted under the last entry of the daily limits. The fill is for the same question, for users if the endpoint can be told apart |
| GatewayTheorems.AnsweredByPolicy | assembly/locator.go:129-148 | in every run an answered request reached the proxy once under the policy, never otherwise, and a refusal writes, once, the status of the first rule that is broken |
| GatewayTheorems.UnansweredNotProxied | middleware/middleware.go:20-25 | a request still on its way has not reached the proxy |
| GatewayTheorems.AnswersAreBacked | service/authentication.go:35-60 | at any moment every grant a request was told is its own or from the latest live fill under the same key, and every refusal is its own; the fill is for the same question, for users if the endpoint can be told apart |
| GatewayTheorems.ConcurrentAuthorization | service/authorization.go:32-58 | under any interleaving, unless application checks are skipped, a yes about the application the request was granted is this request's or the latest one stored for the same application, method and path, within the configured duration; a no is always this request's own |
| GatewayTheorems.CachesRefineLog | cache/cache.go:26-50 | after any run, reloads and cleaning included, a cache answers for a key with the log's latest fill of it until its deadline, and with nothing otherwise |
| GatewayTheorems.CachingIsTransparent | service/authorization.go:32-58 | with an authority that does not change its mind, nobody is ever told anything else, cached or not; for users if the endpoint can be told apart |
| GatewayTheorems.SharedUserCache | service/user_authentication.go:158-195 | across reloads a cached user answer was granted to the request that stored it, is the latest under the key that is read and no older than the duration of the setting that stored it; it is for the same endpoint and token if the endpoint can be told apart |
| GatewayTheorems.NonPositiveNeverCaches | service/user_authentication.go:158-164 | no hit and no fill of the shared user cache is ever made under a setting whose duration is not positive |
| GatewayTheorems.SkipFlagIsOwn | service/user_authentication.go:206-217 | a request, answered or not, carries the flag of its own generation's setting, whoever filled the cache |
| GatewayRuns.ArrivesUnderLatest | assembly/locator.go:62-182 | a request that arrives at position k of a run is served to its end under the configuration of the last reload accepted before k |
| GatewayRuns.NothingServedBefore | assembly/locator.go:62-182 | before the first accepted reload no request is taken |
| GatewayCalls.CallsAreOwn | service/authorization.go:32-58 | every call, hit and fill in the log belongs to a middleware its request has reached, and uses the cache and the lifetime of that request's own configuration |
| GatewayCalls.OnlyItsOwnQuestions | middleware/authenticate.go:22-90 | no request is the subject of any other question than about its own tokens, method, path, permission and the application and admin it was granted; the rate limiter is asked only about listed applications |
| GatewayCalls.AnonymousRefused | middleware/authenticate.go:22-90 | a request without a usable application token that may not skip application checks gets 401, and nobody is asked about an application |
| GatewayCalls.AskedOnlyOnMiss | service/authorization.go:34-40 | every application, authorization or permission question, and every user question under a positive duration, is answered by the log's latest fill while it lives, and goes to the authority otherwise |
| GatewayQuota.QuotaConservation | service/daily_limit.go:32-45 | with a fixed limit, which is the last entry for the application in each counting request's daily limits, the day's count is passed plus refused plus lost; the number of distinct requests admitted is passed, at most min(count, limit) and exactly that when no reply is lost |
| GatewayQuota.CountedRequests | middleware/daily_limit.go:18-40 | a request is counted at most once, after every earlier gate, under the last entry of its application in its own configuration's daily limits, and told exactly what its count says |
| GatewayQuota.RefusedEarlierNotCounted | assembly/locator.go:143-146 | a request refused by an earlier gate never moves the counter |
| GatewayCleaning.CleanerIsInvisible | cache/cache.go:68-78 | taking all cleaner steps out of a run changes no event, no request, no counter and no present or future cache read |
| GatewayProgress.EveryRequestIsAnswered | middleware/middleware.go:20-25 | whatever others do, a request is answered after at most 39 steps of its own |
| Metadata.WriteMetadata | proxy/grpc.go:154-191 | the metadata for some visiting order of the user's headers, the base alone under SkipAuth, and no result exactly when an authenticated user comes without a header map |
| Metadata.NilHeaders | proxy/grpc.go:177-178 | a whole call with a user without a header map, which has no result |
| Metadata.Precedence | proxy/grpc.go:166-189 | in every order the admin id wins over user headers, these over application identity, and empty lists leave earlier values alone |
| Metadata.IdentityHeaders | proxy/grpc.go:154-190 | under distinct header names each kit header carries its own fact about the call or application unless a user header supplies its key, and `x-admin-id` the admin's id |
| Metadata.UserHeaderForwarded | proxy/grpc.go:175-188 | a user's header or identity whose lower-cased name no other one shares arrives under that name if and only if it starts with `x-`, and never in place of the admin id |
| Metadata.OrderIndependence | proxy/grpc.go:178-184 | the metadata is the same in every order if and only if headers forwarded under one key agree (or are empty, or replaced by the admin id) |
| Metadata.SpellingsClash | proxy/grpc.go:178-184 | two spellings of one name whose outcome depends on the order |

## Left out

- Network clients (`repository/system.go`, `repository/admin.go`, `repository/user_authentication.go`) and the lock service's algorithms: an authority answers anything at any time; what it answered is in the log.
- The rate limiter's algorithm: for a listed application its verdict is an answer like the others.
- JSON encoding, `UnescapeUnicodeJson` and base64: library code.
- Failing JSON coding inside the cache repositories: excluded by the assumption that coding is inverse.
- Reading a token from a header or a cookie: a provider yields a token, an empty token or an error.
- `Context.Param`: the values it finds are part of the request, its memo is not modelled.
- Unicode case mapping: `WriteMetadata` takes the lower-casing function as a parameter, so its results hold for any.
- The header names of the kit library: parameters of `WriteMetadata`.
- Lookup of endpoint metadata (`routes`, gorilla mux): the metadata is part of the request.
- Request ids, logging texts, response buffering, metrics: they change no decision. Logger appears as the one place where reading the body can fail.
- I/O errors while writing a refusal (`httperrors/errors.go:28-37`): the status counts as written.
- The HTTP and websocket proxies and gRPC status codes: the upstream succeeds or fails with any status.
- Overflow of durations and nanosecond arithmetic: time is an unbounded integer counted in nanoseconds.
- Calls that never return: a step of the machine is a call that came back; a timeout is a failed answer.
- Aliasing in the state machine: its caches are values; the classes in `Services` hold the live objects, and `StepsAreTheCall` connects the two.
- Bootstrap, shutdown and the ticker that starts the cleaner: a cleaner step may happen at any time.
- EveryRequestIsAnswered: assumes that the proxy returns; the panic of `writeMetadata` on a nil header map is outside the machine, where it counts as an error of the upstream.
- QuotaConservation: assumes that no reload changes the limit of that application, since a changed limit changes the question.
