# Session and token lifecycle of microservice-users, in Dafny

This project models the part of the `microservice-users` service that issues, validates,
rotates and caps authentication sessions. It covers:

- the auth orchestrator `AuthService`: sign-in, sign-up, token issuance under the per-user
  session cap, single-use refresh rotation, settings replacement and Google find-or-create;
- the refresh-token ledger, modelled as a set of rows `(uuid, user_uuid, token)`;
- the user store: users keyed by UUID with unique emails, the settings column as a string
  map, NotFound translation and the transaction scope;
- the JWT codec: claim building, expiry stamping, fresh refresh ids, algorithm checking and
  validation;
- the value objects: currencies, days, settings, users, the random-password generator and
  the error taxonomy;
- the HTTP port's error mapping, validation slugs and bearer-token extraction.

Layout, one module per Go file:

| file | module | Go file |
|---|---|---|
| wrappers.dfy | `Wrappers`, `Uuids` | (Option; 128-bit UUIDs) |
| errors.dfy | `AppErrors` | internal/app/errors/errors.go |
| currency.dfy | `Currencies` | internal/app/currency/currency.go |
| day.dfy | `Days` | internal/app/day/day.go |
| user.dfy | `Users` | internal/app/user/user.go |
| jwt.dfy | `Jwt` | internal/app/jwt/jwt.go |
| refresh_repository.dfy | `RefreshAdapter` | internal/adapters/refresh_pgsql_repository.go |
| users_repository.dfy | `UsersAdapter` | internal/adapters/users_pgsql_repository.go |
| auth.dfy | `Auth` | internal/app/user/auth.go |
| http.dfy | `Ports` | internal/ports/http.go |

How the Go program is represented:

- A Go `error` is `AppErrors.Error`: either `App(AppError)` or `Other(message)`.
- A Go pair `(T, error)` is `Outcome<T>(value, err)`. The zero value the Go code returns
  beside an error stays visible.
- The two Postgres repositories are classes. `RefreshPgsqlRepository` has a field
  `rows: set<RefreshRow>`. `UserPgsqlRepository` has a field `table: map<Uuid, UserModel>`
  and a field `tx`, which holds the snapshot an open transaction would roll back to.
  `AuthService` holds both repositories and changes them through their methods.
- Every database call takes the error it returns as a parameter (`ioErr`; None means the call
  succeeds). The orchestrator takes one `Faults` record per request, with one slot per kind
  of call. The slot `findUser` feeds the first read of a user and `reread` the read that
  follows a settings or picture update.
- The clock, `uuid.New()`, the bcrypt salt and the draws of the time-seeded `math/rand` come
  in as an `Entropy` record.
- bcrypt is a `PasswordHasher` value with two function fields. Its law `Sound()` says that a
  hash a password produced verifies against that password.
- The JWS library is a `Codec` with encode and decode function fields. Its law `Lawful` says
  that decoding inverts encoding.
- HMAC is an ideal MAC: a decoded token names the key it was signed with, and verification
  compares that key with the secret. Algorithms follow section 3.1 of RFC 7518; `exp` follows
  section 4.1.4 of RFC 7519.
- Google's `idtoken.Validate` comes in as a `GoogleVerification` value: either the verified
  claims or the error.

Behaviour of the code worth knowing:

- Sign-in failures are IncorrectInput errors with slug `invalid-credentials`
  (internal/app/user/auth.go:87, :91).
- `UpdateSettings` rejects an unknown first day of week with
  `field-first-day-of-week-invalid`. It does not substitute a default day
  (internal/app/user/auth.go:236-239). Only the read path (`serviceUserFromModel`) is lenient.
- Google sign-in for a new email stores `DefaultUserSettings()`. The settings that carry the
  claimed picture (internal/app/user/auth.go:275-276) are never used, so the picture is not
  stored.

Facts about the code that the model states outright:

- Signing an HS256 token with a byte-slice key cannot fail. So `CreateAccess` and
  `CreateRefresh` are total, and the error check at internal/app/user/auth.go:161 can never
  fire.
- golang-jwt v4's `ParseWithClaims` returns a nil error exactly when the token is valid. So
  the `!t.Valid` branches of `ValidateAccess` and `ValidateRefresh` are dead.
- `ValidateRefresh` never returns an error. On any failure it returns the zero token with a
  nil error. `Refresh` then looks the zero claims up in the ledger, finds no row (no row has
  the nil token id), and fails with `invalid-token`.
- `ParseWithClaims` decodes JSON into the target struct. A live refresh token therefore passes
  `ValidateAccess`, since both payloads carry the `UserId` key.

## Model

| member | source | states |
|---|---|---|
| AppErrors.NewAppError | internal/app/errors/errors.go:32-38 | the error has category Unknown and carries the given message and slug |
| AppErrors.NewAuthorizationError | internal/app/errors/errors.go:40-46 | category Authorization, given message and slug |
| AppErrors.NewIncorrectInputError | internal/app/errors/errors.go:48-54 | category IncorrectInput, given message and slug |
| AppErrors.NewNotFoundError | internal/app/errors/errors.go:56-62 | category NotFound, given message and slug |
| AppErrors.IsNotFoundExactly | internal/app/errors/errors.go:64-75 | IsNotFound holds exactly for AppErrors of category NotFound, and never for an error that is not an AppError |
| AppErrors.OtherConstructorsAreNotNotFound | internal/app/errors/errors.go:32-75 | errors from the other three constructors are not NotFound; one from NewNotFoundError is, and is an AppError |
| AppErrors.TagsDistinct | internal/app/errors/errors.go:7-12 | the four category tags are pairwise distinct |
| Currencies.FromString | internal/app/currency/currency.go:23-40 | accepts exactly RUB, GEL, AMD, USD, EUR and RSD, returning a currency whose String() is the input; anything else is UNKNOWN with the error "Invalid currency value" |
| Currencies.FromStringOfString | internal/app/currency/currency.go:9-37 | every currency except UNKNOWN parses back from its String() with no error |
| Currencies.StringInjective | internal/app/currency/currency.go:9-21 | distinct currencies have distinct strings |
| Days.FromString | internal/app/day/day.go:27-46 | accepts exactly MON to SUN, returning a day whose String() is the input; anything else is UNKNOWN with the error "Invalid day value " plus the input |
| Days.FromStringOfString | internal/app/day/day.go:12-43 | every day except UNKNOWN parses back from its String() with no error |
| Days.StringInjective | internal/app/day/day.go:12-25 | distinct days have distinct strings |
| Users.DefaultUserSettings | internal/app/user/user.go:30-35 | RUB, MON and an empty picture URL |
| Users.NewUserSettings | internal/app/user/user.go:37-43 | copies its three arguments field for field |
| Users.NewUser | internal/app/user/user.go:45-63 | copies its seven arguments field for field |
| Users.CharsetSize | internal/app/user/user.go:65-66 | the password alphabet has 70 characters |
| Users.StringWithCharset | internal/app/user/user.go:101-110 | a loop over a new buffer gives exactly `length` characters; character i is `charset[draws[i]]`, so every character is from the charset |
| Users.GeneratePassword | internal/app/user/user.go:97-99 | 20 characters, each from the 70-character alphabet; character i is the alphabet character at draw i |
| Users.String | internal/app/user/user.go:112-114 | `length` characters; character i is the alphabet's character at draw i, as StringWithCharset over that alphabet |
| Jwt.WireRoundTrip | internal/app/jwt/jwt.go:17-26 | access and refresh claims survive encoding to the JSON payload and decoding back |
| Jwt.NewAccessClaims | internal/app/jwt/jwt.go:44-48 | only the user id is kept; email and name are dropped; no expiry yet |
| Jwt.NewRefreshClaims | internal/app/jwt/jwt.go:50-54 | only the user id is set; the token id is nil; no expiry yet |
| Jwt.CreateAccess | internal/app/jwt/jwt.go:64-77 | the returned claims are the input user id with exp = now + accessTTL, and the token decodes to exactly those claims, HS256, signed under the secret |
| Jwt.CreateRefresh | internal/app/jwt/jwt.go:79-93 | the returned claims have the fresh token id, the input user id and exp = now + refreshTTL, and the token decodes to exactly those claims, HS256, under the secret |
| Jwt.ValidateParsed | internal/app/jwt/jwt.go:128-134 | the key is handed out (the secret) exactly when the header's algorithm is an HMAC; any other algorithm is an error |
| Jwt.ParseWithClaims | internal/app/jwt/jwt.go:96 | the library's parse succeeds exactly when the token decodes, names an HMAC algorithm, was signed under the secret and is unexpired, and then it is valid |
| Jwt.ValidateAccess | internal/app/jwt/jwt.go:95-109 | succeeds exactly for accepted tokens, returning the decoded claims and the input string; otherwise the zero value with an error |
| Jwt.ValidateRefresh | internal/app/jwt/jwt.go:111-126 | never returns an error: the decoded claims and the input string for an accepted token, otherwise the zero value |
| Jwt.AccessRoundTrip | internal/app/jwt/jwt.go:64-109 | a created access token validates to exactly what CreateAccess returned until its expiry, and is rejected as expired from then on |
| Jwt.RefreshRoundTrip | internal/app/jwt/jwt.go:79-126 | a created refresh token validates to exactly what CreateRefresh returned until its expiry, and to the zero value with no error from then on |
| Jwt.ForgeriesRejected | internal/app/jwt/jwt.go:95-134 | a token signed under another key, or with a non-HMAC algorithm, is refused by ValidateAccess and yields the zero value from ValidateRefresh |
| Jwt.RefreshTokenPassesAsAccess | internal/app/jwt/jwt.go:95-109 | a live refresh token is accepted by ValidateAccess for the same user id |
| RefreshAdapter.CountAfterInsert | internal/adapters/refresh_pgsql_repository.go:29-41 | inserting a new row raises its owner's count by one and no one else's |
| RefreshAdapter.CountAfterWipe | internal/adapters/refresh_pgsql_repository.go:71-79 | after deleting a user's rows that user has none and every other user keeps theirs |
| RefreshAdapter.RefreshPgsqlRepository.Add | internal/adapters/refresh_pgsql_repository.go:29-42 | on success exactly the row (Claims.UUID, Claims.UserId, Token) is added; on error nothing changes and the error is returned |
| RefreshAdapter.RefreshPgsqlRepository.Exists | internal/adapters/refresh_pgsql_repository.go:43-59 | true exactly when a row matches all three columns; no match is false with no error; a query error is false with that error |
| RefreshAdapter.RefreshPgsqlRepository.Delete | internal/adapters/refresh_pgsql_repository.go:61-69 | removes the rows with that token id and nothing else |
| RefreshAdapter.RefreshPgsqlRepository.DeleteForUserUUID | internal/adapters/refresh_pgsql_repository.go:71-79 | removes every row of that user and no other row |
| RefreshAdapter.RefreshPgsqlRepository.CountForUser | internal/adapters/refresh_pgsql_repository.go:81-86 | the number of rows owned by the user; 0 with the error when the query fails |
| UsersAdapter.UserSettingsToMap | internal/adapters/users_pgsql_repository.go:38-44 | exactly the keys currency, first_day_of_week and profile_picture_url, holding the String() values and the URL |
| UsersAdapter.ServiceUserFromModel | internal/adapters/users_pgsql_repository.go:156-176 | succeeds exactly when the stored currency is a known code, copying every column; an unknown stored day becomes MON; otherwise the currency error |
| UsersAdapter.SettingsRoundTrip | internal/adapters/users_pgsql_repository.go:38-44 | settings written by UserSettingsToMap read back as the same settings when currency and day are real values |
| UsersAdapter.UserRoundTrip | internal/adapters/users_pgsql_repository.go:138-176 | a user stored as a row reads back as the same user |
| UsersAdapter.LenientDayStrictCurrency | internal/adapters/users_pgsql_repository.go:157-165 | an unknown stored day reads as MON while an unknown stored currency is an error |
| UsersAdapter.Get | internal/adapters/users_pgsql_repository.go:67-79 | no rows becomes the NotFound error "Not found" with slug not-found; other errors pass through unchanged; a row gives no error |
| UsersAdapter.UserNotFoundBranchIsDead | internal/adapters/users_pgsql_repository.go:113-117 | the user-not-found re-mapping changes an error only for a database error whose message is "not-found"; a missing row still gives slug not-found |
| UsersAdapter.LookupByEmail | internal/adapters/users_pgsql_repository.go:123-136 | the database error re-mapped, or the NotFound error when no row has the email, or the one row holding that email as a user |
| UsersAdapter.UserPgsqlRepository.FindById | internal/adapters/users_pgsql_repository.go:108-121 | the database error re-mapped, NotFound with slug not-found for an unknown UUID, or the stored row as a user |
| UsersAdapter.ById | internal/adapters/users_pgsql_repository.go:108-121 | FindById's answer as a function of the table: only a stored UUID with no database error yields a user, the stored row read back; an unknown UUID without a database error is a NotFound error |
| UsersAdapter.UserPgsqlRepository.FindByEmail | internal/adapters/users_pgsql_repository.go:123-136 | the answer LookupByEmail describes |
| UsersAdapter.UserPgsqlRepository.Add | internal/adapters/users_pgsql_repository.go:138-145 | inserts the user's row unless the database fails or the UUID or email is taken, keeping keys and emails unique |
| UsersAdapter.UserPgsqlRepository.UpdateSettings | internal/adapters/users_pgsql_repository.go:147-154 | a failed UPDATE changes nothing and is returned as is; otherwise only that user's settings column is rewritten, and the answer is FindById's on the new table: the re-read error re-mapped (no rows becomes NotFound), NotFound for an unknown UUID, or the stored user with the new settings |
| UsersAdapter.UserPgsqlRepository.Transactional | internal/adapters/users_pgsql_repository.go:81-106 | a failed begin returns its error without running the callback; an open transaction is reused; a callback or commit error rolls back and returns that error; tx is nil on every return |
| Auth.IssueCount | internal/app/user/auth.go:165-180 | after count, wipe-when-strictly-above-the-cap and insert, the user has 1 session after a wipe and one more otherwise; other users' rows are untouched |
| Auth.AuthService.ValidateToken | internal/app/user/auth.go:72-82 | succeeds exactly for accepted access tokens, returning the input string and the token's user id; otherwise the zero token |
| Auth.AuthService.IssuedAccessValidates | internal/app/user/auth.go:72-82 | an issued access token validates to exactly the token and UUID it was issued for until its expiry, and is rejected as expired from then on |
| Auth.AuthService.IssuedRefreshNamesItsRow | internal/app/user/auth.go:202-213 | until its expiry an issued refresh token names exactly the ledger row issuance stored, the row Refresh looks up |
| Auth.AuthService.CreateTokens | internal/app/user/auth.go:133-192 | succeeds exactly when count, wipe (only when the count is above the cap) and insert all succeed, and then returns the access and refresh tokens created for that user at that time; any failure is Authorization could-not-authorize-user with the zero response; the ledger on every path is the one the steps reached: unchanged, wiped, or the count-wipe-insert result with the new row |
| Auth.AuthService.constructor | internal/app/user/auth.go:62-70 | the service holds the given repositories, JWT service, cap, Google key and hasher, and starts out valid |
| Auth.AuthService.SignIn | internal/app/user/auth.go:84-95 | a failed lookup (any error) and a wrong password give the same IncorrectInput invalid-credentials error and add no row; for the stored user holding that email and password it succeeds exactly when issuance gets through, returns the tokens issued for that user, and leaves the ledger issuance reached; success only ever happens for such a user |
| Auth.AuthService.SignUp | internal/app/user/auth.go:97-131 | an existing email is IncorrectInput field-email-invalid and a non-NotFound lookup error is returned unchanged; a failed hash is create-user-error and a failed begin, insert (including a duplicate key or email) or commit is user-saving-error, all storing nothing; once the user (default settings) is committed it stays stored, and the call succeeds exactly when issuance gets through, returning the tokens issued for the new user with the ledger issuance reached |
| Auth.AuthService.SignUpThenSignIn | internal/app/user/auth.go:84-131 | with a sound hasher, signing in right after signing up never gives invalid-credentials, and the tokens are for the new UUID |
| Auth.AuthService.GetUser | internal/app/user/auth.go:194-196 | the user store's answer for that UUID: the re-mapped database error, NotFound for an unknown UUID, or the stored row read back |
| Auth.AuthService.Refresh | internal/app/user/auth.go:202-228 | a string without a matching ledger row fails with invalid-token and leaves the ledger unchanged; a failed delete is invalid-token with the ledger unchanged; after the delete, a failed or corrupt user read is invalid-token with only the old row gone; otherwise it succeeds exactly when issuance gets through on the ledger without the old row, returning the tokens issued for the stored user |
| Auth.AuthService.RefreshTwice | internal/app/user/auth.go:202-228 | once a rotation with a string succeeds, rotating with the same string again fails with invalid-token |
| Auth.AuthService.UpdateSettings | internal/app/user/auth.go:230-249 | succeeds exactly when both codes are known, the stored user reads back, and the UPDATE and the re-read succeed; currency is checked first, then the day, then that the user exists and its stored row reads back; every failure up to and including the UPDATE leaves the store unchanged; once the UPDATE succeeds the new settings stay stored, and a failed re-read returns its re-mapped error; on success the answer is the re-read user: old email and name, the three request values as settings; the answer and the table equal SettingsAnswer and TableAfterSettings of the old table |
| Auth.SettingsAnswer | internal/app/user/auth.go:230-249 | the answer of a settings update in stage order; it succeeds only when the UPDATE went through and the re-read had no database error |
| Auth.TableAfterSettings | internal/app/user/auth.go:230-249 | the user table after a settings update: the same keys, with the new settings column only once the UPDATE went through |
| Auth.AuthService.GoogleSignIn | internal/app/user/auth.go:251-294 | a rejected assertion is IncorrectInput invalid-credentials; for a known email the stored settings are rewritten from the parsed user with the claimed picture (an unknown stored day becomes MON, other keys are dropped) and the call succeeds exactly when issuance gets through, with the tokens issued for the existing user; for a new email a failed hash of the generated password is create-user-error and a failed insert user-saving-error, storing nothing; otherwise the user with the claimed email and name and the default settings (no picture) is stored and the call succeeds exactly when issuance gets through; the ledger is the one issuance reached |
| Ports.RespondWithAppError | internal/ports/http.go:414-431 | a non-AppError is 500 internal-server-error; an AppError keeps its slug with Authorization 401, IncorrectInput 400, NotFound 404 and Unknown 500 |
| Ports.StatusClassifies | internal/ports/http.go:414-431 | a 4xx status is given exactly for the three client-side categories, and the status determines the category of an AppError |
| Ports.RespondValidationError | internal/ports/http.go:170-206 | always 400; the slug is the table's entry for the first field error's (field, tag), or invalid-input |
| Ports.FirstErrorDecides | internal/ports/http.go:184 | only the first field error decides the response |
| Ports.IndexOf | internal/ports/http.go:382 | the first index at which the separator occurs, or -1 exactly when it does not occur |
| Ports.JoinSplit | internal/ports/http.go:382 | joining the pieces of strings.Split with the separator gives back the header |
| Ports.SplitPiecesFree | internal/ports/http.go:382 | no piece of strings.Split contains the separator |
| Ports.SplitSecondPiece | internal/ports/http.go:382-388 | there are at least two pieces exactly when the separator occurs; the second piece is what lies between its first and second occurrences |
| Ports.GetAccessFromHeader | internal/ports/http.go:380-395 | no "Bearer " in the header is Authorization invalid-token "Token not presented"; otherwise succeeds exactly when the second piece is an accepted access token, and returns it |
| Ports.Me | internal/ports/http.go:297-320 | any token-extraction failure is 401 invalid-token; an unknown user is 404 not-found; with a token that validates, a body is returned exactly when the store reads the caller's user back, and it is that user; otherwise the store's error rendered by RespondWithAppError |
| Ports.UpdateSettingsHandler | internal/ports/http.go:246-295 | any token-extraction failure is 401 invalid-token and an unreadable body 400 invalid-input, both changing nothing; validator failures answer RespondValidationError; a body holds the caller's UUID, their stored email and name and the requested settings, and the table then holds those settings for that user and nothing else changed; for a valid token and payload a body is returned exactly when the service's update succeeds, every service error is rendered by RespondWithAppError, and the table is the one the service update leaves (new settings once the UPDATE went through, even when the re-read failed) |

## Left out

- Goroutines and the WaitGroup in `createTokens` (internal/app/user/auth.go:144-159): the two
  token creations are modelled as running one after the other. The code never waits, calls
  `wg.Add` after starting the goroutines and shares `err` between them. The resulting data
  race, and a nil token reaching `Add`, are not modelled.
- Races between concurrent requests: the count, wipe and insert steps of two requests for
  the same user are not interleaved.
- HMAC-SHA256, base64url, JSON and the golang-jwt parser are left abstract as the `Codec`
  and its law.
- bcrypt is left abstract as a `PasswordHasher` value and its law `Sound()`.
- Google's `idtoken.Validate` is left abstract: its outcome is a parameter of `GoogleSignIn`.
- `time.Now`, `uuid.New` and the time-seeded `math/rand` are parameters. Fresh token ids are
  assumed unused (the `FreshId` precondition).
- SQL text, pgx, pgxscan and the connection pool are not modelled. Tables are a map and a
  set; every database error is injected by the caller.
- `SaveRefresh` (internal/app/user/auth.go:198-200) does exactly what `GetUser` does, and is
  not modelled separately.
- `NewJwtService`, `NewRefreshPgsqlRepository`, `NewUserPgsqlRepository` and
  `NewAuthService` are the Dafny constructors of the corresponding types.
- UsersAdapter.UserPgsqlRepository: the `connector` choice between pool and transaction is
  not modelled as a value of its own. Statements inside a transaction act on `table` while
  `tx` holds the snapshot a rollback restores.
- Jwt.ParseWithClaims and Jwt.AccessRoundTrip: library error texts are simplified. golang-jwt
  reports expiry as "token is expired by <delta>"; the model uses "token is expired".
- Auth.AuthService.CreateTokens: the error check after signing
  (internal/app/user/auth.go:161-163) is not modelled because signing cannot fail.
- Jwt.CreateAccess and Jwt.CreateRefresh: `exp` is whole seconds, and time arithmetic
  overflow is not modelled.
- UsersAdapter.ZeroUser: the zero `User` returned beside an error has UNKNOWN settings here.
  In Go they would be empty strings; no caller reads them.
- UsersAdapter.UserPgsqlRepository.Transactional: the only callback modelled is the one the
  service passes, which inserts a user. A failed commit is assumed to apply nothing.
- HTTP routing, middleware, CORS, body reading, JSON decoding, rendering, logging, the
  sign-in, sign-up, refresh and Google handlers, and the debug prints in
  `RespondValidationError` are not modelled. The validator's verdict and the decoded body are
  parameters of `UpdateSettingsHandler`.
- Configuration loading (cmd/main.go), application wiring (internal/app/app.go), the mailer
  and the test doubles are not part of this model.
