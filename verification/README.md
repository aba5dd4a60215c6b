# Jusgo request pipeline in Dafny

Jusgo is a small HTTP service for storing jokes. This project models its
`controller` package and the arithmetic of its service layer:

- **Error mapping.** `NewErrorStatus` pairs an error with a status code.
  `ErrorInfo` walks the unwrap chain the way `errors.As` does and turns an
  error into a `{"error": ...}` body and a status.
- **Routing.** `RegisterRoutes` builds a table of six method-and-path
  routes and mounts it under `/v1`, with the prefix stripped. Three routes
  are behind the bearer-token gate `ensureAdmin`.
- **Middleware.** The request `middleware` writes the JSON error response
  when a handler fails. `limitMiddleware` admits a request according to the
  per-IP limiter table of `rate_limiting.go`.
- **Handlers.** Each handler (health, create, get, list, update, delete) is
  a fixed chain of checks that ends in a status code.
  `parsePaginationParams` reads the `page` and `limit` query values.
- **Service layer.** `service_impl.go` computes `skip = (page - 1) * limit`
  in Go's 64-bit `int` and converts hex ids before any repository call.

How the model is built:

- The response writer is a `ResponseRecorder` class that keeps the trace of
  calls made on it. The status, headers and body the client receives are
  read off that trace by net/http's commit rules:
  - the first `WriteHeader` or the first body write fixes the status;
  - a later `WriteHeader` is superfluous.
- Collaborators are inputs, not code:
  - the JSON decoder, the validator, the clock, the id generator, the
    service answers, the encoder's outcome and the limiter's `Allow()`
    answer are all passed in;
  - a handler returns the service calls it made, its writes and its error.
- The few standard-library functions the pipeline depends on for its
  decisions are modelled in their own modules:
  - `strings.Fields` and `strings.ToLower`;
  - `strconv.Atoi`;
  - `net.SplitHostPort`;
  - `primitive.ObjectIDFromHex`.

Modules, one per file: `Wrappers`, `Errors`, `Strings`, `Strconv`,
`Primitive`, `Models`, `Http`, `Net`, `RateLimiting`, `Middlewares`,
`Service`, `Handlers`, `Routes`.

## Model

| member | source | states |
|---|---|---|
| Errors.Unwrap | internal/controller/error.go:17 | unwrapping an ErrorStatus yields exactly its embedded cause; only leaf errors have no successor |
| Errors.Message | internal/controller/error.go:8-11 | an ErrorStatus reports the message of the error it embeds, so the message is that of the first link of the chain that is not an ErrorStatus |
| Errors.NewErrorStatus | internal/controller/error.go:27-32 | the new error unwraps to `err` and reports `err`'s message |
| Errors.Chain | internal/controller/error.go:21 | the unwrap chain walked by errors.As starts at the error itself |
| Errors.FindStatus | internal/controller/error.go:21 | errors.As finds nothing exactly when no link of the chain is an ErrorStatus; otherwise it finds the first (outermost) one |
| Errors.ErrorInfo | internal/controller/error.go:19-25 | the status is the code of the first ErrorStatus in the chain, or 500; a chain without an ErrorStatus gives "unknown error occurred" with 500 |
| Errors.ErrorInfoOfNewErrorStatus | internal/controller/error.go:19-32 | round trip: ErrorInfo(NewErrorStatus(e, c)) is body {error: message of e} with status exactly c, whatever c is |
| Errors.ErrorInfoOutermostDecides | internal/controller/error.go:21-22 | when the first ErrorStatus sits at depth k, its cause's message and its code are the result, whatever lies deeper |
| Errors.FirstStatusUnique | internal/controller/error.go:21 | the ErrorStatus errors.As returns is the one at the first position holding one |
| Errors.ErrorInfoSeesThroughWrapping | internal/controller/error.go:21 | wrapping an error with %w does not change what ErrorInfo reports |
| Errors.Is | internal/controller/handler_impl.go:170 | errors.Is(err, target) holds exactly when target is a link of err's unwrap chain |
| Http.StatusOf | internal/controller/middlewares.go:37 | a response whose head is never committed goes out with status 200 |
| Http.BodyOf | internal/controller/middlewares.go:38 | the body consists only of body writes and is no longer than the trace |
| Http.StatusOfCommittedPrefix | internal/controller/middlewares.go:37 | once the head is committed, nothing appended changes the status |
| Http.StatusOfUncommittedPrefix | internal/controller/middlewares.go:36-37 | before the head is committed, the status is decided by what comes next |
| Http.BodyOfAppend | internal/controller/middlewares.go:38 | the body of two traces in sequence is the first body followed by the second |
| Http.HttpError | internal/controller/middlewares.go:53 | http.Error yields the given status, Content-Type "text/plain; charset=utf-8" and the message plus a newline as body |
| Http.MovedPermanently | internal/controller/handler_impl.go:61 | the redirect ServeMux sends for "/v1": status 301, Location the target, an HTML Content-Type for GET and HEAD, and for GET only an HTML link to the target as body |
| Http.ResponseRecorder.Replay | internal/controller/middlewares.go:36-38 | the writer's trace grows by exactly the given calls, in order |
| Middlewares.MiddlewareEffects | internal/controller/middlewares.go:30-44 | no error writes nothing; an error sets Content-Type application/json, takes ErrorInfo's status and encodes {error: ErrorInfo's message} as the whole body |
| Middlewares.Middleware | internal/controller/middlewares.go:22-46 | the writer's trace is the handler's writes followed by exactly MiddlewareEffects(err) |
| Middlewares.MiddlewareReportsFailure | internal/controller/middlewares.go:30-38 | a handler that failed before writing gets ErrorInfo's status and the JSON error appended to its body |
| Middlewares.MiddlewareCannotChangeCommittedStatus | internal/controller/middlewares.go:37 | a handler that failed after committing keeps its status; the error body is still appended |
| Middlewares.EnsureAdmin | internal/controller/middlewares.go:48-79 | empty header gives "authorization header is not provided"; fewer than two fields give "invalid authorization header format"; another scheme gives "unsupported authorization type " plus the lower-cased scheme; a bearer header whose second field is not the token gives "invalid token"; Pass exactly when the lower-cased scheme is "bearer" and the second field equals the token |
| Middlewares.AuthEffects | internal/controller/middlewares.go:53 | a refusal is a 401 whose body is the message plus a newline |
| Middlewares.SchemeIsCaseInsensitive | internal/controller/middlewares.go:64-65 | the scheme test accepts "bearer" in any ASCII case and nothing else |
| Middlewares.EnsureAdminAcceptsBearer | internal/controller/middlewares.go:57-77 | any spacing around "bearer <token>" passes, and fields after the token are ignored |
| Middlewares.EnsureAdminBlankHeader | internal/controller/middlewares.go:57-62 | a header made only of white space is a malformed header, not a missing one |
| Middlewares.EnsureAdminUnsetTokenRefusesAll | internal/controller/middlewares.go:72 | with TOKEN unset (empty) no header passes |
| Middlewares.EnsureAdminWrongToken | internal/controller/middlewares.go:71-76 | a well-formed bearer header carrying a different token gives "invalid token" |
| Middlewares.BearerHeaderPasses | internal/controller/middlewares.go:57-77 | "Bearer <token>" passes for any non-empty token without white space |
| Middlewares.LimitMiddleware | internal/controller/middlewares.go:81-97 | an unparsable RemoteAddr gives 500 "unable to determine IP" and leaves the table untouched; otherwise the IP's entry is refreshed, next runs exactly when Allow() says so, and a denial gives 429 "rate limit exceeded" |
| RateLimiting.Evicted | internal/controller/rate_limiting.go:48-52 | after a sweep an IP remains exactly when it was present and not idle for more than 3 minutes; surviving entries are unchanged |
| RateLimiting.Idle | internal/controller/rate_limiting.go:49 | an entry is idle exactly when more than 180 seconds (in nanoseconds) have passed since it was last seen |
| RateLimiting.IdleStaysIdle | internal/controller/rate_limiting.go:49 | an idle entry stays idle at every later instant until it is seen again |
| RateLimiting.RateLimiter.constructor | internal/controller/rate_limiting.go:20-23 | a new table is empty |
| RateLimiting.Limiter.constructor | internal/controller/rate_limiting.go:38 | a new limiter records exactly the rate and burst it was made with |
| RateLimiting.RateLimiter.GetClient | internal/controller/rate_limiting.go:29-41 | a known IP keeps the same limiter object with lastSeen = now; an unknown IP gets a fresh limiter at rate 1 and burst 5; the table becomes Refreshed(old table) |
| RateLimiting.Refreshed | internal/controller/rate_limiting.go:33-40 | the IP is present with lastSeen = now, every other entry is unchanged, and the table grows by at most one (by none for a known IP) |
| RateLimiting.RateLimiter.CleanupClients | internal/controller/rate_limiting.go:47-53 | the delete-while-ranging loop leaves exactly Evicted(old table, now) |
| RateLimiting.SweepKeepsBoundary | internal/controller/rate_limiting.go:49 | an entry idle exactly 3 minutes survives, because the comparison is strict |
| RateLimiting.SweepNeverGrows | internal/controller/rate_limiting.go:48-52 | a sweep never adds keys and never grows the table |
| RateLimiting.SweepIdempotent | internal/controller/rate_limiting.go:48-52 | a second sweep at the same instant removes nothing more |
| RateLimiting.SweepMonotoneInTime | internal/controller/rate_limiting.go:49 | a later sweep keeps no more entries than an earlier one |
| RateLimiting.RecentClientSurvives | internal/controller/rate_limiting.go:33-39 | a client refreshed by getClient survives every sweep up to 3 minutes later |
| RateLimiting.StaleClientEvicted | internal/controller/rate_limiting.go:49-50 | an entry idle for more than 3 minutes is removed |
| Strings.Fields | internal/controller/middlewares.go:57 | every field strings.Fields returns is non-empty and free of white space |
| Strings.FieldsKeepEveryNonSpace | internal/controller/middlewares.go:57 | the fields laid end to end are exactly the non-space characters of the header |
| Strings.FieldsSkipSpace | internal/controller/middlewares.go:57 | leading white space does not change the fields |
| Strings.FieldsOfWordThen | internal/controller/middlewares.go:57 | a word followed by white space or the end is the first field |
| Strings.ToLower | internal/controller/middlewares.go:64 | ToLower keeps the length and lower-cases each ASCII letter |
| Strings.ToLowerMatchesIffFold | internal/controller/middlewares.go:64-65 | comparing ToLower(s) with a lower-case word is exactly an ASCII case-insensitive comparison |
| Strconv.Atoi | internal/controller/handler_impl.go:206 | a parsed value lies in the int64 range; the empty string is an error |
| Strconv.AtoiOfItoa | internal/controller/handler_impl.go:206 | every non-negative int64 written in decimal parses back to itself |
| Strconv.AtoiPlusSign | internal/controller/handler_impl.go:206 | a leading '+' is accepted and does not change the value |
| Primitive.ObjectIdFromHex | internal/service/service_impl.go:27 | only a 24-character string can convert; any other length is the invalid-hex error |
| Primitive.DecodeEncodeHex | internal/service/service_impl.go:27 | hex decoding inverts hex encoding |
| Primitive.ObjectIdFromHexOfHex | internal/service/service_impl.go:27 | the hex of an ObjectID converts back to that ObjectID |
| Primitive.DecodeHexRejects | internal/service/service_impl.go:27 | a string containing a non-hex character never decodes |
| Net.SplitHostPort | internal/controller/middlewares.go:83 | a split succeeds only when the address has a colon, and the host has no brackets |
| Net.SplitHostPortPlain | internal/controller/middlewares.go:83 | "host:port" splits into host and port |
| Net.SplitHostPortBracketed | internal/controller/middlewares.go:83 | "[host]:port" splits into host and port, so an IPv6 host keeps its colons |
| Net.SplitHostPortNeedsColon | internal/controller/middlewares.go:83-86 | an address without a colon is refused with "missing port in address" |
| Service.Wrap64 | internal/service/service_impl.go:37 | the result lies in the int64 range, equals x when x is in range, and is congruent to x modulo 2^64 |
| Service.Skip | internal/service/service_impl.go:37 | the skip is an int64 congruent to (page - 1) * limit modulo 2^64 |
| Service.CreateJoke | internal/service/service_impl.go:22-24 | the document reaches the repository unchanged, and the repository's answer is returned as is |
| Service.GetJoke | internal/service/service_impl.go:26-33 | a bad id returns the conversion error with no repository call; otherwise the repository is asked for the parsed id |
| Service.GetAllJokes | internal/service/service_impl.go:36-39 | the repository is asked for `limit` documents after Skip(page, limit); its answer is returned as is |
| Service.UpdateJoke | internal/service/service_impl.go:42-51 | a bad id returns the conversion error with no repository call; otherwise only data's id is replaced |
| Service.DeleteJoke | internal/service/service_impl.go:53-60 | a bad id returns the conversion error with no repository call; otherwise the delete fails exactly when the repository reports an error |
| Service.GetJokeByHex | internal/service/service_impl.go:27-32 | the hex of a document's id reaches the repository as that very id |
| Service.UpdateJokeByOwnHex | internal/service/service_impl.go:43-50 | updating a document under its own hex id sends it to the repository unchanged |
| Service.UpdateJokeKeepsFields | internal/service/service_impl.go:48 | the joke text, CreatedAt and UpdatedAt pass through unchanged |
| Service.SkipExact | internal/service/service_impl.go:37 | without overflow the skip is exactly (page - 1) * limit, and never negative |
| Service.SkipFirstPage | internal/service/service_impl.go:37 | page 1 skips nothing |
| Service.SkipConsecutive | internal/service/service_impl.go:37 | page p + 1 starts exactly where page p ends |
| Service.PagesDisjoint | internal/service/service_impl.go:37 | two different pages with the same limit cover disjoint ranges [skip, skip + limit) |
| Service.SkipWrapsForHugePages | internal/service/service_impl.go:37 | page 2^62 + 1 wraps to a skip of 0 (limit 4) or a negative skip (limit 2) |
| Handlers.Fail | internal/controller/handler_impl.go:127 | a handler returning NewErrorStatus(cause, code) produces status code, the JSON content type and body {error: message of cause} |
| Handlers.JsonOk | internal/controller/handler_impl.go:157-159 | the success path commits status 200; the body is the encoded value, or nothing when marshalling fails |
| Handlers.Succeed | internal/controller/handler_impl.go:157-159 | a success response is 200 whatever the encoder does; a clean encode makes the value the whole body, a failed write leaves it first in the body, and a marshal failure leaves only the middleware's error, "unknown error occurred" for an unclassified error |
| Handlers.LookupFailureCode | internal/controller/handler_impl.go:169-173 | a lookup failure is 404 exactly when ErrNoDocuments is in the chain, else 500 |
| Handlers.Respond | internal/controller/middlewares.go:30-41 | a handler that succeeded keeps its own writes; one that failed before committing gets ErrorInfo's status; one that failed after committing keeps its status; a failure appends the JSON error to the body |
| Handlers.HealthHandler | internal/controller/handler_impl.go:124-130 | 200 with body "Hello world" and no service call, even when the write fails |
| Handlers.CreateJoke | internal/controller/handler_impl.go:132-160 | an empty body gives 400 "request body must not be empty"; a decode or validation failure gives 400 with its message; the service is not called in those cases; otherwise it gets the new id, the text, CreatedAt from the second clock reading and UpdatedAt from the first; a service failure is 500; success is 200 with the stored joke |
| Handlers.GetJoke | internal/controller/handler_impl.go:162-179 | an empty id gives 400 "id is required" with no service call; ErrNoDocuments gives 404; any other service error gives 500; success is 200 with the joke |
| Handlers.PositiveParam | internal/controller/handler_impl.go:205-217 | an absent value takes the default; a present one is accepted exactly when Atoi parses it to at least 1 |
| Handlers.PaginationOf | internal/controller/handler_impl.go:197-220 | success means both values are between 1 and MaxInt64; a bad page gives "invalid page number" whatever the limit; otherwise a bad limit gives "invalid limit number" |
| Handlers.ParsePaginationParams | internal/controller/handler_impl.go:197-220 | the step-by-step parse returns PaginationOf's values, or (0, 0) and its error |
| Handlers.PaginationDefaults | internal/controller/handler_impl.go:201-202 | a missing page is 1 and a missing limit is 10 |
| Handlers.PaginationReadsDecimal | internal/controller/handler_impl.go:205-217 | every positive int64 written in decimal is accepted as itself |
| Handlers.PaginationRejectsNonPositivePage | internal/controller/handler_impl.go:207-208 | page "0" and every negative page give "invalid page number" |
| Handlers.GetAllJokes | internal/controller/handler_impl.go:181-195 | a pagination error is a 400 with that message and no service call; otherwise the service is asked for the page and limit, both at least 1; a service failure is 500; success is 200 with the list |
| Handlers.UpdateJoke | internal/controller/handler_impl.go:222-257 | checks run in order: empty id gives 400; decode or validation failure gives 400; a non-hex id gives 500 "failed to create object id"; all of these skip the service; otherwise the service gets the parsed id, the text, a zero CreatedAt and UpdatedAt = now; every service error, not-found included, is 500 |
| Handlers.DeleteJoke | internal/controller/handler_impl.go:259-279 | an empty id gives 400; a failed lookup gives 404 on ErrNoDocuments and 500 otherwise; delete is called only after a successful lookup; success is 200 with no body |
| Routes.PatternMatch | internal/controller/handler_impl.go:55 | a `{id}` match is a non-empty single path segment that completes the prefix |
| Routes.MatchRoutes | internal/controller/handler_impl.go:53-58 | a match is a registered route whose pattern and method fit the request; 404 exactly when no pattern fits the path |
| Routes.Dispatch | internal/controller/handler_impl.go:60-62 | a match is a route registered on the mux or a mux mounted in it, with a fitting method; a `{id}` value is a non-empty single segment; a plain mux never redirects; the mount prefix itself is redirected to the prefix plus "/" |
| Routes.RunEndpoint | internal/controller/handler_impl.go:53-58 | a handler makes at most two service calls; the health check makes none; create, update and delete calls come only from their own handlers, and get and delete calls carry the path id |
| Routes.Serve | internal/controller/handler_impl.go:52-63 | a service call happens only for a request the mux routed to a handler, and on an admin route only when ensureAdmin passed it |
| Routes.ServeWithoutHandler | internal/controller/handler_impl.go:52-63 | an unmatched path is a 404 and a wrong method a 405; the mount prefix is a 301 whose Location is the subtree; on an admin route a refused request is a 401; none of these makes a service call |
| Routes.HandlerImpl.constructor | internal/controller/handler_impl.go:35-46 | a new handler's mux is the six routes mounted under /v1 |
| Routes.HandlerImpl.RegisterRoutes | internal/controller/handler_impl.go:52-63 | the routes are added to the current mux, which is then replaced by a mux serving it under "/v1/" with the prefix stripped |
| Routes.HandlerImpl.ServeHTTP | internal/controller/handler_impl.go:52-63 | serving a request writes exactly the trace Serve specifies and makes its service calls |
| Routes.ServeRouteHTTP | internal/controller/middlewares.go:22-46 | a routed request writes exactly the gate's refusal, or the handler's writes followed by the middleware's, and reports the handler's service calls |
| Routes.AdminRoutesAreTheMutations | internal/controller/handler_impl.go:53-58 | exactly POST /jokes, PATCH /jokes/{id} and DELETE /jokes/{id} are behind ensureAdmin |
| Routes.MatchedOnlyUnderV1 | internal/controller/handler_impl.go:60-62 | a request reaches a handler only if its path starts with "/v1/" |
| Routes.V1PrefixIsStripped | internal/controller/handler_impl.go:61 | under /v1 the table sees the path with "/v1" removed |
| Routes.AdmittedRequestsReachTheHandler | internal/controller/middlewares.go:77 | a request ensureAdmin passes reaches its handler unchanged, and the response is that handler's |
| Routes.JokesPathRoutes | internal/controller/handler_impl.go:54-56 | on /jokes, GET lists, POST creates, and other methods get 405 |
| Routes.IdPathRoutes | internal/controller/handler_impl.go:55-58 | on /jokes/{id}, GET reads, PATCH updates and DELETE deletes, with the id taken from the path |
| Routes.ServeMatchedRoute | internal/controller/handler_impl.go:53-58 | a routed request that passes its gate gets exactly its handler's response |
| Routes.ServeJokesPath | internal/controller/handler_impl.go:54-56 | GET /v1/jokes gets the list handler's response and an admitted POST /v1/jokes the create handler's |
| Routes.ServeIdPath | internal/controller/handler_impl.go:55-58 | GET /v1/jokes/{id} gets the get handler's response, and admitted PATCH and DELETE the update and delete handlers', each with the id from the path |
| Routes.ListWithPageZero | internal/controller/handler_impl.go:182-185 | GET /v1/jokes?page=0 is a 400 "invalid page number" with no service call |
| Routes.GetMissingJokeIsNotFound | internal/controller/handler_impl.go:168-171 | GET /v1/jokes/{id} on a missing document is a 404 after one lookup |
| Routes.GetBadHexIsInternalError | internal/service/service_impl.go:27-30 | GET /v1/jokes/{id} with a non-hex id is a 500 with no repository call |
| Routes.DeleteMissingJokeIsNotFound | internal/controller/handler_impl.go:266-269 | an admitted DELETE of a missing document is a 404 and no delete is issued |
| Routes.UpdateMissingJokeIsInternalError | internal/controller/handler_impl.go:250-251 | an admitted PATCH of a missing document is a 500, not a 404 |
| Routes.CreateInvalidJokeIsBadRequest | internal/controller/handler_impl.go:141-143 | an admitted POST whose body fails validation is a 400 with no service call |
| Routes.HealthUnderV1 | internal/controller/handler_impl.go:53 | GET /v1/hello-world is 200 |
| Routes.HealthNotAtRoot | internal/controller/handler_impl.go:60-62 | GET /hello-world is 404: only "/v1/" is mounted |

## Left out

- I/O is not modelled: JSON encoding and decoding, the validator and `log.Printf`. Decoding and validation outcomes are inputs; encoding is an `Encode` effect. The encoder's outcome is an input with three cases: encoded, marshalling failed (nothing written) or the write failed (the value was handed to the writer).
- Time is not modelled: the 5-second `context.WithTimeout` and duration measurement are omitted, and `time.Now()` is a parameter. Instants are integer nanoseconds.
- Concurrency is not modelled: the `sync.Mutex` and the `cleanupClients` goroutine with its one-minute sleep. One sweep is `CleanupClients(now)`.
- The token bucket of `golang.org/x/time/rate` is not part of this model. `Allow()` is a boolean input; a limiter records only its rate and burst.
- `primitive.NewObjectID` is an input.
- `cmd/main.go`, the database package and the repository implementation are not part of this model. The repository and the service collaborator are abstract; their answers are inputs.
- The handlers call the service through the `ServiceProvider` interface. So the `Routes` lemmas take the service's answers as inputs. `Routes.GetBadHexIsInternalError` ties the interface to `Service.GetJoke`.
- `middleware` and `ensureAdmin` are modelled once. `internal/controller/handler_impl.go:24-27,65-122` repeats them and the two constants from `internal/controller/middlewares.go`, with the same text.
- The value a failing function returns beside its error is not modelled (for example `data` from `UpdateJoke` on a bad id). Callers never use it.
- `Strings.ToLower`: handles ASCII letters only, while `strings.ToLower` also lower-cases non-ASCII letters. Which schemes pass does not change: the only non-ASCII letters that lower to ASCII ones are the Kelvin sign (U+212A, to 'k') and the capital I with dot above (U+0130, to 'i'), and "bearer" has neither 'k' nor 'i'. The text of the "unsupported authorization type" message does differ for a scheme with non-ASCII capitals.
- `Primitive.ObjectIdFromHex`: counts characters, not UTF-8 bytes. The invalid-byte error omits the offending character. It agrees with the driver on every ASCII string.
- `Http.HttpError`: `http.Error` also deletes a `Content-Length` header and, in recent Go versions, may reset `Content-Encoding`; neither is modelled.
- Response status codes are not range-checked. net/http panics on a code outside 100-999, and no code in this program is outside that range.
- `Routes.Dispatch`: implements only what the six patterns and the `/v1/` mount need:
  - literal paths and one trailing `{id}` segment;
  - first-match order;
  - GET also serving HEAD;
  - 405 when only the path fits;
  - the 301 redirect from `/v1` to `/v1/`, without the request's query string, which ServeMux appends to the Location.

  ServeMux path cleaning, percent-decoding of the path value, host patterns, the `Allow` header of a 405 response and precedence between overlapping patterns are not modelled. The six routes do not overlap.
- `Routes.Serve`: for a HEAD request net/http sends the status and headers but drops the body bytes on the wire. The trace keeps them, so `BodyOf` is what the handler wrote, not what a HEAD client receives.
- The model follows the code as written where it may surprise a reader:
  - no route is wrapped by `limitMiddleware`, so a route has no rate-limit flag; `LimitMiddleware` is modelled on its own;
  - the health check is served only at `/v1/hello-world`;
  - a PATCH of a missing document is 500, not 404;
  - `CreateJoke` reads the clock twice, `UpdatedAt` first, so the two stamps may differ.
- `Service.GetAllJokes`: `(page - 1) * limit` wraps around in Go's 64-bit `int`, and the model computes it that way (`Service.Wrap64`). The skip properties are proved for products that fit in int64. `Service.SkipWrapsForHugePages` shows what happens beyond that. The handler accepts any page up to 2^63 - 1, so such a request reaches the repository with a wrapped skip.
