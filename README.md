# Tiger sightings backend: a verified model of its core

This Dafny project models the core of `tigerhall_kittens`. That is a Go HTTP backend where users register and log in. They then record tigers and report sightings of them. Every other user who reported the same tiger gets an e-mail notification.

The model covers:

- **Reporting a sighting.** The proximity check (no second sighting of a tiger within 5000 m) comes first. Then the reporter's id is read from the request context and one row is inserted. Finally there is the fan-out onto the notification queue: one message per stored sighting of the tiger, skipping the reporter's own rows.
- **The store queries.** Each is an insert plus a filter, an `ORDER BY … DESC` and GORM's offset/limit window, over the `sightings`, `tigers` and `users` tables.
- **User creation and login.** Each has an existence lookup, a hash or compare step and token signing. The lookup goes through the hand-built SQL condition of the user repository.
- **The HTTP layer's decisions.** This covers:
  - the mapping from service errors to web errors;
  - the web error constructors and their text;
  - the JSON envelope, its status and the panic-to-500 path;
  - the request wrapper's path and query parameter maps;
  - `page`/`per_page` validation and the offset of both listing endpoints.

Code that changes state in place is modelled as classes:

- the tables, whose `rows` are a `seq`;
- the notification channel, as the `seq` of everything sent on it;
- the request wrapper, whose two lazily made Go maps are `Option<map>`;
- the services and handlers that hold them.

Each such method is proved against a specification function of the old state. Examples are `SightingService.ReportEffect` and `UserService.CreateUserEffect`. The properties the code promises are lemmas about those functions.

Everything outside the core is a parameter of the operation that uses it:

- the database's errors (`fault`);
- PostGIS's distance test;
- RFC 3339 and UUID parsing;
- bcrypt;
- JWT signing;
- the clock;
- the fresh id;
- the database's evaluation of the user lookup's SQL condition.

Go's `strconv.Atoi`, `strconv.ParseUint` with its error discarded, `%d`, and 64-bit `int` wrap-around are written out in `decimal.dfy`.

Where the repository's documentation and its code disagree, the model follows the code:

- A report does not check that the tiger exists.
- The notifier re-fetches every sighting of the tiger after the insert. It is not handed the earlier list.
- A malformed timestamp is stored as Go's zero time rather than rejected.
- A notifier failure is reported with the reused text "error while checking existing sightings".
- The user-creation lookup is by e-mail only.
- Service errors of the sighting endpoints answer 400.

## Model

| member | source | states |
|---|---|---|
| Decimal.NatToDecimal | internal/web/error.go:67-72 | `%d` of a natural number is a non-empty digit string without a leading zero that denotes the number |
| Decimal.Atoi | internal/handler/tiger.go:50-58 | a successful `strconv.Atoi` reads text that is an optional sign followed by at least one digit and nothing else, and yields that signed decimal value, which lies in Go's 64-bit `int` range; any unsigned digit string up to 2^63-1 is accepted with its value |
| Decimal.AtoiOfIntToDecimal | internal/handler/tiger.go:50-58 | every 64-bit `int` printed with `%d` parses back with `strconv.Atoi` to itself |
| Decimal.ParseUintIgnoringErrorValue | internal/handler/sighting.go:53 | `ParseUint` with its error discarded gives a digit string's value saturated at 2^64-1, and 0 for text that starts with a non-digit |
| Decimal.ParseUintIgnoringErrorAtNonDigit | internal/handler/sighting.go:53 | for text whose first non-digit is at position `i`, `ParseUint` with its error discarded gives 0 when the digits before it are at most 2^64-1 ("12x" gives 0) and 2^64-1 when they are more (the range error comes first) |
| Decimal.WrapInt64 | internal/handler/tiger.go:60 | Go's `int` arithmetic: the result lies in the int64 range, differs from the exact value by a multiple of 2^64, and so equals it whenever that is in range |
| Ordering.SortDesc | internal/repository/sighting.go:65 | `ORDER BY … DESC` returns a permutation of the rows, sorted by descending key |
| Ordering.Window | internal/repository/sighting.go:63-64 | `Offset`/`Limit`: a positive offset skips that many rows and a positive limit keeps at most that many, in order; zero or negative values add no clause |
| Ordering.WindowOfSorted | internal/repository/tiger.go:42 | a window of sorted rows is sorted and holds only those rows |
| Ordering.PagesTileRows | internal/handler/tiger.go:60-62 | pages 1..k with offset `(page-1)*perPage` are together exactly the first `k*perPage` rows: nothing skipped, nothing repeated |
| SightingRepository.CountInRangePositiveIff | internal/repository/sighting.go:46-48 | the range count is positive iff some stored row of the tiger lies within 5000 m of the point |
| SightingRepository.FilterTiger | internal/repository/sighting.go:66 | the struct condition keeps each matching row as often as it is stored and no other; tiger 0 matches every row |
| SightingRepository.QueryShape | internal/repository/sighting.go:62-67 | the listing is newest first, holds only stored rows of the requested tiger, and at most `limit` of them |
| SightingRepository.QueryUnpagedIsAllOfTiger | internal/repository/sighting.go:62-67 | without offset and limit the listing is a permutation of the tiger's stored rows |
| SightingRepository.SightingTable.ReportSighting | internal/repository/sighting.go:34-42 | the insert appends exactly the row, or returns the store's error and leaves the table as it was |
| SightingRepository.SightingTable.GetSightingsCountInRange | internal/repository/sighting.go:44-58 | `(0, err)` on a failure; otherwise the number of stored rows of the tiger within the literal 5000 m (the options' radius is not used), so positive iff there is one |
| SightingRepository.SightingTable.GetSightings | internal/repository/sighting.go:60-75 | `(nil, err)` on a failure; otherwise the filtered, ordered, windowed rows |
| NotificationWorker.FanOut | cmd/notification_worker/sighting.go:57-69 | the fan-out sends at most one notification per fetched row |
| NotificationWorker.FanOutSkipsCurrentUser | cmd/notification_worker/sighting.go:57-69 | every notification is the sighting e-mail for the tiger (subject "Tiger Sighting Email", no user in the payload), and none goes to the current user |
| NotificationWorker.FanOutRecipients | cmd/notification_worker/sighting.go:57-69 | each other user gets exactly one notification per row they reported (no de-duplication); the current user gets none |
| NotificationWorker.ReportersOfPermutation | cmd/notification_worker/sighting.go:48-50 | who reported the rows does not depend on their order, so the re-ordered fetch reaches the same users |
| NotificationWorker.NotificationQueue.Send | cmd/notification_worker/sighting.go:32 | a send appends the notification to the channel's history |
| NotificationWorker.SightingEmailNotifier.constructor | cmd/notification_worker/sighting.go:19-23 | the notifier works on the given sightings table and queue |
| NotificationWorker.SightingEmailNotifier.Process | cmd/notification_worker/sighting.go:25-33 | one notification with the subject, the user and the payload is enqueued |
| NotificationWorker.SightingEmailNotifier.NotifyReporters | cmd/notification_worker/sighting.go:57-69 | the loop enqueues exactly the fan-out of the rows, in row order |
| NotificationWorker.SightingEmailNotifier.ReportSightingToAllUsers | cmd/notification_worker/sighting.go:41-72 | a failed fetch returns "error while fetching existing sightings" and sends nothing; otherwise nil, after the fan-out of every sighting of the tiger (no range, no limit) |
| SightingService.SightingService.constructor | internal/service/sighting.go:34-39 | the service and its notifier work on one sightings table |
| SightingService.SightingService.ReportSighting | internal/service/sighting.go:41-87 | the outcome, the table and the queue are those of the step-by-step report effect on the old table and queue |
| SightingService.SightingService.GetSightings | internal/service/sighting.go:89-98 | the repository's answer, error included, passed through as it is: newest first, of the tiger, and stored rows |
| SightingService.RejectedChangesNothing | internal/service/sighting.go:42-57 | a failed or positive range count returns its error before the context is read, and changes neither the table nor the queue |
| SightingService.FailureBeforeInsertChangesNothing | internal/service/sighting.go:41-78 | every failure before the notifier, and the panic, leaves the table and the queue as they were |
| SightingService.BadUserIdRejected | internal/service/sighting.go:60-64 | a context user id that is not a UUID fails the report and persists nothing |
| SightingService.InsertErrorReturnedUnchanged | internal/service/sighting.go:75-78 | the insert's error is returned as it is and the notifier is not called |
| SightingService.StoredReportAddsOneRow | internal/service/sighting.go:59-84 | a stored report adds exactly one row with the request's tiger, position and image, the context user and the parsed time (zero time when malformed); a notifier failure does not undo it |
| SightingService.ReporterNeverNotified | internal/service/sighting.go:75-80 | when the request context's user text is the canonical spelling of the UUID it parses to (as in the tokens the server issues), the queue only grows and nothing a report sends goes to the reporter |
| SightingService.NotificationsPerUser | internal/service/sighting.go:80-86 | after a successful report every other user gets one notification per row of the tiger they reported, the new row included |
| TigerRepository.ListQueryUnpagedIsAll | internal/repository/tiger.go:39-49 | without offset and limit the listing is every stored tiger, most recently seen first |
| TigerRepository.Created | internal/repository/tiger.go:30 | what `DB.Create` writes back into the record: a zero key becomes the assigned key, a zero `CreatedAt`/`UpdatedAt` becomes the insert's time, a set one is kept, and no other field changes |
| TigerRepository.CreatedIdempotent | internal/repository/tiger.go:30 | a record that already carries a key and times is written back unchanged by a second insert's defaults |
| TigerRepository.TigerTable.SaveTiger | internal/repository/tiger.go:29-37 | on success the table gains one row, the record as the insert writes it back (key and times set), and the caller's record becomes that row; on a failure the store's error and the table as it was |
| TigerRepository.TigerTable.GetTigers | internal/repository/tiger.go:39-49 | `(nil, err)` on a failure; otherwise exactly the listing query over the stored rows: stored tigers, most recently seen first, at most `limit` of them |
| UserRepository.BuildCondition | internal/repository/user.go:43-50 | the step-by-step condition equals the four-case condition: username clause, email clause joined with " or ", either alone, or "" |
| UserRepository.EmailOnlyConditionDangles | internal/repository/user.go:48-50 | an e-mail-only lookup sends a condition that starts with a dangling " or " |
| UserRepository.UsernameSplicedVerbatim | internal/repository/user.go:44-46 | the username sits verbatim between the quotes, so a quote in it rewrites the SQL (`x' or '1'='1`) |
| UserRepository.UserTable.CreateUser | internal/repository/user.go:30-38 | the insert appends exactly the user, or returns the store's error and leaves the table as it was |
| UserRepository.UserTable.GetUser | internal/repository/user.go:40-59 | the answer is the database's answer to the built condition, error included |
| UserService.UserService.CreateUser | internal/service/user.go:33-66 | the result and the user table are those of the step-by-step creation effect |
| UserService.CreateUserStoresOneUserOrNothing | internal/service/user.go:45-65 | a failure leaves the table as it was; a success comes only after "not found" and stores the fresh id, username, e-mail, clock and the password's hash |
| UserService.CreateUserLookupOutcomes | internal/service/user.go:34-43 | a found user gives "user already exists", and any lookup error other than not-found is returned unchanged; nothing is stored either way |
| UserService.CreateUserAfterNotFound | internal/service/user.go:52-65 | a hashing error is returned before any insert; otherwise the insert's error (or nil) is the result |
| AuthService.TokenClaims | internal/service/auth.go:75-82 | the claims carry the user's id, and the expiry is 24 hours after the issue time, up to the difference between the two clock readings |
| AuthService.AuthService.LoginUser | internal/service/auth.go:46-73 | the answer is the login decision applied to the database's answer to the username lookup |
| AuthService.LoginSucceedsIff | internal/service/auth.go:46-73 | a login succeeds iff a user is found, the password matches and signing succeeds; the token is the one signed for that user's claims |
| AuthService.LoginFailures | internal/service/auth.go:48-68 | a lookup error is returned unchanged, then a mismatch gives "invalid username or password", then a signing failure gives "failed to generate token" |
| AuthService.LoginLooksUpByUsername | internal/service/auth.go:47 | the login lookup is the username clause alone |
| WebError.ErrUnauthorizedRequest | internal/web/error.go:28-30 | code "unauthorized", status 401, the given description, empty cause |
| WebError.ErrBadRequest | internal/web/error.go:31-33 | code "bad_request", status 400, the given description, empty cause |
| WebError.ErrInternalServerError | internal/web/error.go:34-36 | code "internal_server_error", status 500, the given description, empty cause |
| WebError.ErrUpstreamError | internal/web/error.go:37-39 | the caller's code, status 200, the given description, empty cause |
| WebError.ConstructedErrors | internal/web/error.go:28-44 | every constructed error has an empty cause, and its status identifies the constructor |
| WebError.ErrorTextFields | internal/web/error.go:66-73 | `Error()` lays out code, description, status and cause in order, and the status reads back as itself |
| HandlerErrors.ErrorResponse | internal/handler/errors.go:10-48 | 400 exactly for a missing tiger, a sighting already reported and a user that already exists; 401 exactly for a wrong username or password; 500 otherwise; empty cause |
| HandlerErrors.ErrorResponseMessage | internal/handler/errors.go:10-48 | the message per branch: bare text, "error while reporting sighting : ", "login failed : ", "user creation failed : ", or "error while processing request : " for any error without a sentinel |
| HandlerErrors.PlainTextIsNotSentinel | internal/handler/errors.go:31-33 | an ad-hoc error with a sentinel's text is not that sentinel: the login service's own error maps to 500, not 401 |
| WebRequest.Join | internal/web/request.go:50 | joining no values gives "", and joining one gives that value |
| WebRequest.JoinAppend | internal/web/request.go:50 | joining two non-empty runs of values is joining each with one separator between them, so every value appears in order with separators only between neighbours |
| WebRequest.JoinLength | internal/web/request.go:50 | the joined text is as long as the values together plus one separator between each two neighbours |
| WebRequest.JoinStartsWithFirst | internal/web/request.go:50 | the joined text starts with the first value |
| WebRequest.Request.constructor | internal/web/request.go:26-28 | a new request has no path-parameter map and no cached query map |
| WebRequest.Request.SetPathParam | internal/web/request.go:30-35 | the map is made on first use and the key is set; the query cache is untouched |
| WebRequest.Request.GetPathParam | internal/web/request.go:37-42 | the value set for the key, or "" for a key never set, the map not yet made included |
| WebRequest.Request.QueryParams | internal/web/request.go:44-53 | the first call caches each query key with its values joined by " \| "; later calls return the cache unchanged |
| WebRequest.SetThenGet | internal/web/request.go:30-42 | a key reads back as the value set last, and every other key reads as before |
| Endpoint.BuildResponse | internal/handler/middleware/endpoint.go:141-168 | "success" is true iff there is no error; the data goes only with success, and the error's code and description only with failure |
| Endpoint.ResponseCode | internal/handler/middleware/endpoint.go:170-175 | 200 without an error, the error's own status with one |
| Endpoint.GetURL | internal/handler/middleware/endpoint.go:177-183 | the path, or "undefined" for a nil request, a nil URL or an empty path |
| Endpoint.Serve | internal/handler/middleware/endpoint.go:53-80 | a returned answer gets its response code; a panic gives 500 internal_server_error whose message is the panic value |
| Endpoint.ServeV1Endpoint | internal/handler/middleware/endpoint.go:20-28 | every envelope carries API version 1 |
| Endpoint.ApplyParamsLookup | internal/handler/middleware/endpoint.go:43-45 | a router parameter named twice keeps its last value; other keys keep theirs |
| Endpoint.BindPathParams | internal/handler/middleware/endpoint.go:42-45 | binding the router's parameters sets them in order on the request's path map |
| Paging.QueryGet | internal/handler/tiger.go:47-48 | the first value given for the key; a missing key or one without values reads as "" |
| Paging.ValidatePagination | internal/handler/tiger.go:50-58 | accepted iff both are positive decimal ints; `page` is checked first, and each failure names its parameter |
| Paging.ValidatePaginationAccepts | internal/handler/tiger.go:50-58 | every positive 64-bit page and page size is accepted |
| Paging.PageOffsetAsWritten | internal/handler/tiger.go:60 | the offset as written: in the int64 range, congruent to `(page-1)*perPage` modulo 2^64, exact when it fits |
| Paging.PageOffset | internal/handler/tiger.go:60 | the intended offset is non-negative and a whole number `page-1` of pages |
| Paging.OffsetsAgreeInRange | internal/handler/tiger.go:60 | wherever `(page-1)*perPage` fits in 64 bits, the offset as written and the intended offset are equal |
| Paging.ExactPagesTile | internal/handler/tiger.go:60-62 | with the exact offset, consecutive pages neither skip nor repeat a row |
| Paging.OffsetWrapsNegative | internal/handler/sighting.go:71-77 | an accepted page whose product wraps to a negative offset serves page 1 again |
| TigerHandler.ListTigersAtWrittenOffset | internal/handler/tiger.go:60-74 | wherever `(page-1)*per_page` fits in Go's `int`, the listing is the window at the offset as the handler writes it |
| TigerHandler.ListTigersResult | internal/handler/tiger.go:46-74 | 400 for a bad `page`, then for a bad `per_page`; 500 "Error while fetching tigers : …" on a store error; success exactly when both are positive ints and the store answers, with the echoed page and size and that window of tigers, most recently seen first |
| TigerHandler.TigerHandler.ListTigers | internal/handler/tiger.go:46-74 | the listing decision over the current table, listing only stored tigers |
| TigerHandler.TigerHandler.CreateTiger | internal/handler/tiger.go:27-44 | 400 on a body that does not decode; 500 "error while saving tiger : …" on a store error with the table unchanged; otherwise the decoded tiger, with the key the database assigns and its `created_at`/`updated_at` filled in, is stored and echoed |
| TigerHandler.ListingPagesTile | internal/handler/tiger.go:60-62 | listing pages 1..k lists every tiger once, most recently seen first |
| SightingHandler.ListingOpts | internal/handler/sighting.go:71-77 | the query asks for a page of `per_page` rows at a non-negative offset, which is the offset as written wherever `(page-1)*per_page` fits in Go's `int` |
| SightingHandler.GetSightingsReply | internal/handler/sighting.go:48-89 | 400 for a bad `page`, then for a bad `per_page`; 400 (never 500) on a service error; a 200 listing exactly when both are positive ints and the service answers, holding that page of the tiger's sightings |
| SightingHandler.ReportReply | internal/handler/sighting.go:27-46 | 201 echoing the request iff decoding and the report succeed; 400 "Failed to decode request body" for a decode failure and 400 "Error while creating req: …" for a service error; nothing written after a panic |
| SightingHandler.SightingHandler.GetSightings | internal/handler/sighting.go:48-89 | the listing decision over the service's table |
| SightingHandler.SightingHandler.ReportSighting | internal/handler/sighting.go:27-46 | a decode failure changes nothing; otherwise the reply to the report's outcome, with the table and queue of its effect |
| SightingHandler.FilterTigerZeroKeepsAll | internal/repository/sighting.go:66 | a zero tiger id filters nothing |
| SightingHandler.UnparsedTigerIdListsEveryTiger | internal/handler/sighting.go:50-53 | a `tiger_id` that is empty, does not start with a digit, or meets a non-digit before its digits pass 2^64-1 ("12x") is not rejected: it reads as 0, and the page is taken from the sightings of every tiger |
| SightingHandler.DigitTigerIdFiltersByIt | internal/handler/sighting.go:50-53 | a numeric `tiger_id` filters by its value, saturated at 2^64-1 |

## Left out

- Concurrency: the goroutine per recipient, the wait group and the unbuffered channel of the notification worker. Sends are modelled as appends in row order. The real order of notifications is not modelled, and neither are blocking or closing the channel.
- Geodesic distance: `st_distancesphere` is an uninterpreted parameter. Nothing is assumed about it, including that `st_makepoint(lat, lon)` has its arguments swapped.
- Foreign parsers and cryptography are parameters: RFC 3339 timestamps, UUIDs (RFC 4122), bcrypt, and HS256 JWT signing (RFC 7519).
- Concurrent reports: `internal/service/sighting.go:45-73` runs the proximity count and the insert as two statements with no transaction or lock, so two reports of the same tiger at once can both count 0 and both be stored. The model runs reports one at a time; `SightingService.StoredReportAddsOneRow` and the 5000 m rule hold only for reports made one after another, which the source does not guarantee.
- The key the database assigns to a new tiger and the time of the insert are parameters of `TigerRepository.TigerTable.SaveTiger` and `TigerHandler.TigerHandler.CreateTiger`. On a failed insert, anything GORM may already have written into the caller's record is not modelled; the handler discards that record.
- Time is whole seconds. Sub-second precision and time zones are not modelled.
- JSON decoding and encoding of request and response bodies, `utils.StructToMap` (and the 500 `CreateTiger` returns when it fails), `readRequestBody`, response writing and headers. A decoded body is a parameter: `None` when decoding fails.
- Logging, request ids and timing in `serve`. They only feed the log.
- `internal/service/tiger.go` is a pass-through. The tiger handlers call the table directly.
- The database's ties under `ORDER BY`: the model keeps stored order among equal keys. That is one of the orders the database may return, not all of them.
- GORM semantics assumed: `Limit`/`Offset` of zero or less add no clause, and a struct condition skips zero fields. This is the behaviour of gorm.io/gorm releases in which `clause.Limit` holds a plain `int` (before `Limit(0)` came to mean `LIMIT 0`); the module's `go.mod` is not part of this model, so the release is an assumption. Under a release where `Limit(0)` means `LIMIT 0`, the notifier's unpaged fetch would return no rows and nobody would be notified.
- The user-id type: `internal/model/sighting.go:7` declares `ReportedByUserID` as `uint`, but the service stores the reporter's UUID. The model uses a UUID known by its canonical text.
- The database's answer to the user lookup's SQL condition is a parameter. SQL evaluation is not modelled, so the injection is shown on the condition text only.
- Decimal.Atoi assumes a 64-bit `int`.
- NotificationWorker.FanOut: its own contract states only the length bound. The content is stated by NotificationWorker.FanOutSkipsCurrentUser and NotificationWorker.FanOutRecipients.
- SightingHandler.SightingHandler.GetSightings and TigerHandler.TigerHandler.ListTigers use the corrected offset `PageOffset` rather than the wrapping one (see Findings).
- TigerHandler.ListTigersResult: uses the corrected offset `PageOffset`, so for a product `(page-1)*per_page` past 2^63-1 it serves the empty page past the end where the Go code serves the page at the wrapped offset (see Findings and `Paging.OffsetWrapsNegative`); where the product fits, `TigerHandler.ListTigersAtWrittenOffset` shows the two agree.
- SightingHandler.GetSightingsReply: uses the corrected offset through `SightingHandler.ListingOpts`, with the same consequence past 2^63-1; where the product fits, `ListingOpts` states the two agree.

## Findings

| source | as written | input that shows it | evidently intended | confidence | as-written member | corrected member |
|---|---|---|---|---|---|---|
| internal/handler/tiger.go:60 | `offset := (page - 1) * perPage` in Go `int`, also at internal/handler/sighting.go:71. Both inputs are validated only as positive, so the product can wrap to a negative offset. GORM ignores a negative offset, so the first page is served again. | `page=4611686018427387905&per_page=2`: the offset wraps to -9223372036854775808 | page `p` is the rows after the first `(p-1)*perPage`, which is empty past the end | not executed | Paging.OffsetWrapsNegative | Paging.ExactPagesTile |
