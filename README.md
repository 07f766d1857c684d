# MinIO admin panel: a Dafny model of its core

This project models the core of a web admin panel for a MinIO object-storage
cluster, written in Go with the gin framework, and states and proves
properties of that model. It covers:

- **Login and the capability probe.** Building the two clients, checking
  credentials with two trial calls, and turning the trial outcomes into six
  permission flags (`Services`).
- **Session tokens.** HS256 tokens that carry the credentials, the policy name
  and the flags for one hour (`Jwt`), the authentication and permission
  middleware (`AuthMiddleware`), and the login, login page and logout
  handlers (`AuthHandlers`).
- **The route table of `main.go`.** Which middleware chain guards each route,
  and who gets through it (`Routes`).
- **Bucket statistics.** The object-listing scan with its deadline
  (`BucketStats`), the storage-usage summary with int64 sums
  (`StorageUsage`), and both byte-size formatters (`ByteFormat`).
- **Languages and translation.** Accept-Language parsing and the
  query > cookie > header > "en" choice (`Language`), the translation
  registry with its fallback chain (`I18n`), the shared parameter pairing
  (`Params`), the template context table (`TemplateContext`) and the template
  data filling (`TemplateHelpers`).
- **Group membership.** `UpdateGroupMembers`, and `SetUserGroups`, which
  removes the user from all groups and then adds the requested ones
  (`Groups`).
- **Small tools.** The translation flattener (`Flatten`), the browser form
  validators (`WebValidation`), the validation CLI's masking and environment
  helpers (`ValidateCli`), and configuration loading (`Config`).

The cluster, the JWT library's cryptography, go-i18n, the file system, the
environment and the clock are never called. The model takes them as inputs:
- `Outcome` values for client constructors and trial calls;
- a `Codec` pair of functions for the token wire format;
- a `TranslationFile` list for the translation directory;
- an `Env` map for the environment;
- an `int` for the current time.

`Gin.Context` is a class standing in for the framework context. It has the
request as constants and the key store, the abort flag, the response and the
cookies set as fields. The group operations of the service layer are
`Groups.GroupService`, a class that logs every call and applies it to a
membership table.

`internal/services/minio.go` repeats `internal/services/base.go` and
`internal/services/minio_buckets.go` function for function. One model covers
both copies. The table cites `base.go` and `minio_buckets.go`; the copies in `minio.go` are CreateClients
44-69, ValidateCredentials 72-110, GetUserPermissions 113-164, ListBuckets 166-206, ListBucketsQuick
209-242, getBucketStats 245-284, GetBucketPolicy 302-332, GetBucketStatsQuick 460-472 and
getBucketStatsWithTimeout 474-513. `getCredentials` in `internal/handlers/group.go` (lines 26-35) repeats the
one in `api.go` line for line, so the `Groups` handlers use `StorageUsage.GetCredentials` and
`StorageUsage.CredentialsTyped` for it. The parameter pairing of `Params` is also repeated in
`internal/handlers/template_helpers.go` (lines 87-100) and `internal/handlers/template_context.go`
(lines 78-87).

## Model

| member | source | states |
|---|---|---|
| Services.CreateClients | internal/services/base.go:45-69 | succeeds iff both constructors succeed; a data-client failure is reported first, each failure with its own prefix; the clients use the configured endpoint and SSL flag and the caller's credentials |
| Services.ValidateCredentials | internal/services/base.go:73-110 | succeeds iff both constructors and both trials succeed; client, bucket-list and user-list failures give "failed to create MinIO clients", "invalid MinIO credentials or connection failed" and "user does not have admin privileges"; success gives AccessKey = username, Status "enabled", PolicyName "admin" |
| Services.UserTrialSkippedAfterBucketFailure | internal/services/base.go:85-89 | after a failed bucket-list trial the user-list outcome cannot change the result |
| Services.SuccessIsAlwaysAdmin | internal/services/base.go:102-106 | every successful validation has policy "admin" and the username as access key |
| Services.NoPermissions | internal/services/base.go:121-128 | exactly the six flag keys, all false |
| Services.ProbedPermissions | internal/services/base.go:114-163 | exactly the six keys; all false when the clients cannot be built; each bucket flag is "built and bucket trial passed", each admin flag "built and user trial passed" |
| Services.FlagsAgreeWithinGroups | internal/services/base.go:131-160 | the three bucket flags are equal, and so are the three admin flags |
| Services.AllPermissions | internal/services/base.go:131-160 | exactly the six keys, all true |
| Services.ValidatedUserGetsAllFlags | internal/services/base.go:77-160 | credentials that validate get all six flags when the probe sees the same outcomes |
| Services.GetUserPermissions | internal/services/base.go:114-163 | the flag-setting method computes ProbedPermissions |
| BucketStats.ObjectCount | internal/services/minio_buckets.go:105-118 | the number of non-error entries, at most the listing's length |
| BucketStats.ObjectBytes | internal/services/minio_buckets.go:93-116 | the running int64 size total always lies in the int64 range |
| BucketStats.ObjectBytesWraps | internal/services/minio_buckets.go:93-116 | the int64 total is the exact sum of the non-error sizes wrapped into int64 |
| BucketStats.ObjectBytesIsExact | internal/services/minio_buckets.go:93-116 | when the exact sum fits into int64 the total is that sum |
| BucketStats.ExactBytesNonNegative | internal/services/minio_buckets.go:115 | with non-negative sizes the exact sum is non-negative |
| BucketStats.ObjectBytesNonNegative | internal/services/minio_buckets.go:115-116 | with non-negative sizes whose exact sum fits into int64, the int64 total is non-negative |
| BucketStats.ScanResultShape | internal/services/minio_buckets.go:93-130 | a scan gives the sentinel (-1,-1) or a non-negative count, and a non-negative size when all sizes are and their exact sum fits into int64 |
| BucketStats.ExactTotalsOfConcatenation | internal/services/minio_buckets.go:105-127 | the exact size sums and the counts of two listings joined add up |
| BucketStats.TotalsOfConcatenation | internal/services/minio_buckets.go:105-127 | the int64 total of two listings joined is the wrapped sum of their totals; the counts add up |
| BucketStats.ErrorAddsNothing | internal/services/minio_buckets.go:106-114 | an error entry changes neither total, wherever it stands |
| BucketStats.DeadlineSeenWithout | internal/services/minio_buckets.go:109-122 | an entry whose deadline has not passed does not change whether the deadline is observed |
| BucketStats.ErrorBeforeDeadlineIsSkipped | internal/services/minio_buckets.go:106-114 | an error entry met before the deadline leaves the result unchanged |
| BucketStats.CompletedScanIsExact | internal/services/minio_buckets.go:105-130 | with no deadline seen and an exact sum that fits into int64, the result is (exact sum of sizes, count) over the non-error entries; an empty listing gives (0,0) |
| BucketStats.DeadlineGivesSentinel | internal/services/minio_buckets.go:109-122 | an entry at which the deadline has passed, wherever it is in the listing, makes the result exactly (-1,-1) |
| BucketStats.LongerBudgetKeepsResult | internal/services/minio_buckets.go:220-259 | a scan that completes within a budget completes with the same totals within a larger one |
| BucketStats.GetBucketStatsWithTimeout | internal/services/minio_buckets.go:220-259 | the loop, with its int64 `+=` wrapping, computes ScanResult for the given budget |
| BucketStats.GetBucketStats | internal/services/minio_buckets.go:92-131 | the same loop, with the same wrapping, and the 30-second budget |
| BucketStats.GetBucketStatsQuick | internal/services/minio_buckets.go:206-217 | the sentinel without scanning when the clients cannot be built, otherwise the scan with the 5-second budget |
| BucketStats.ListBuckets | internal/services/minio_buckets.go:13-53 | a construction failure, then a listing failure, is returned; success iff neither fails, with one entry per bucket, in order, holding the 30-second scan's statistics |
| BucketStats.ListBucketsQuick | internal/services/minio_buckets.go:56-89 | a construction failure, then a listing failure, is returned; otherwise one entry per bucket, in order, with size and count -1 |
| BucketStats.GetBucketPolicy | internal/services/minio_buckets.go:152-182 | a construction failure is returned; then the policy text on success; ("", no error) iff the error text contains one of the three "no policy" phrases; any other error is passed on unchanged |
| BucketStats.ThirdPhraseRedundant | internal/services/minio_buckets.go:168-170 | "The bucket policy does not exist" contains "policy does not exist", so the third test never decides anything |
| StorageUsage.GetCredentials | internal/handlers/api.go:25-34 | succeeds iff username and password are both stored and not nil, and then returns them; otherwise the error "missing credentials" |
| StorageUsage.Accumulate | internal/handlers/api.go:104-116 | the running totals stay in int64 range and count at most as many buckets as were listed |
| StorageUsage.AccumulateIsExact | internal/handlers/api.go:108-116 | while the exact sums fit in int64, the totals are those sums over the buckets with both values >= 0, and buckets_with_stats counts exactly those buckets |
| StorageUsage.WorkedExample | internal/handlers/api.go:108-125 | (100,2), (-1,-1), (0,0) give 100 bytes, 2 objects, 2 buckets with statistics |
| StorageUsage.StatsOf | internal/handlers/api.go:108-110 | one statistics pair per listed bucket |
| StorageUsage.BucketQuickStats | internal/handlers/api.go:110 | one bucket's quick statistics: (-1,-1) when the clients cannot be built, otherwise the 5-second scan |
| StorageUsage.QuickInfos | internal/services/minio_buckets.go:74-85 | one entry per bucket, in order, with name, date and -1 statistics |
| StorageUsage.AddBucketStats | internal/handlers/api.go:111-115 | one turn of the loop: the values are added with int64 wrap-around, and the bucket counted, exactly when both are >= 0 |
| StorageUsage.SumBucketStats | internal/handlers/api.go:104-116 | the loop computes Accumulate over the buckets' quick statistics |
| StorageUsage.GetStorageUsage | internal/handlers/api.go:83-128 | 401 without credentials; 500 with the error text when the clients or the listing fail; otherwise, for a total size below 1024^6, 200 with the totals, total_buckets = number of listed buckets, and the size as formatBytes formats it; from 1024^6 up, formatBytes panics and the answer is Recovery's bare 500 |
| StorageUsage.StatsOfStep | internal/handlers/api.go:108-110 | one more bucket appends its quick statistics |
| StorageUsage.AccumulateStep | internal/handlers/api.go:111-115 | one more pair is added, wrapped, to the totals exactly when both its values are >= 0 |
| StorageUsage.CountWithStatsStep | internal/handlers/api.go:111-115 | the buckets with statistics in a prefix grow by one exactly when the next bucket has them |
| ByteFormat.Pow1024 | internal/handlers/api.go:141-145 | powers of 1024 are positive |
| ByteFormat.Pow1024Monotone | internal/handlers/api.go:141-145 | a larger exponent gives a larger or equal power |
| ByteFormat.ApiExponent | internal/handlers/api.go:141-145 | the loop ends with div = 1024^(exp+1) and div <= bytes < 1024*div |
| ByteFormat.ApiExponentInRange | internal/handlers/api.go:141-148 | the exponent indexes the five units iff bytes < 1024^6 |
| ByteFormat.FormatBytesApiAsWritten | internal/handlers/api.go:131-149 | "N/A" below 0; the decimal and " B" below 1024; index panic iff bytes >= 1024^6; otherwise the quotient by the largest power of 1024 not above bytes, with its unit, which is the text IsApiText describes |
| ByteFormat.ExbibyteIsInt64 | internal/handlers/api.go:131 | 1024^6 = 1152921504606846976 is a legal int64 size |
| ByteFormat.ExponentFitsCorrectedUnits | internal/handlers/api.go:141-148 | with "EB" added the exponent of every int64 size is in range |
| ByteFormat.FormatBytesApi | internal/handlers/api.go:131-149 | the corrected formatter gives, for every int64 size, the text IsApiText describes |
| ByteFormat.FormatBytesPanel | main.go:201-222 | "Calculating..." below 0, "Empty" for 0; otherwise the unit index stays below 5, 1024^index <= bytes, bytes < 1024^(index+1) below TB, and the text is the quotient with that unit |
| Jwt.Sign | internal/middleware/auth.go:104-105 | an HS256 token of exactly those claims with the MAC under the given key |
| Jwt.ValidateClaims | internal/middleware/auth.go:47-51 | no error iff the token is not expired (or has no expiry) and is not used before its nbf (or has none) |
| Jwt.Parse | internal/middleware/auth.go:47-51 | valid iff the text decodes, the algorithm is an HMAC, the signature is the MAC of the claims under the key, and the claims validate; it then returns the decoded claims |
| Jwt.SessionClaims | internal/middleware/auth.go:93-101 | exactly the given username, password, policy name and flags, issued now, expiring one hour later, no nbf |
| Jwt.GenerateJWTWithUserInfo | internal/middleware/auth.go:92-106 | a signing failure is returned; otherwise the encoded HS256 token of SessionClaims under the constant key |
| Jwt.GenerateJWT | internal/middleware/auth.go:78-89 | the same token with only the username |
| Jwt.IssuedTokenVerifies | internal/middleware/auth.go:47-65 | a token issued at t parses as valid under the constant key at any time before t + 1 h, with the four user fields recovered |
| Jwt.IssuedTokenExpires | internal/middleware/auth.go:99 | from t + 1 h on the same token is refused as expired |
| Jwt.OnlyKeyHolderTokensAccepted | internal/middleware/auth.go:47-49 | an accepted token carries an HMAC of its own claims under the verification key |
| Jwt.AnyHmacAccepted | internal/middleware/auth.go:47-49 | the key function does not pin HS256: an HS384 or HS512 token under the key is accepted too |
| Jwt.NoneAlgorithmRefused | internal/middleware/auth.go:47-49 | a token with algorithm "none" is never accepted |
| AuthMiddleware.TokenFromRequest | internal/middleware/auth.go:29-44 | a "token" cookie is used as is; without one, the header must be non-empty and start with "Bearer ", and the token is the rest |
| AuthMiddleware.CookieShadowsHeader | internal/middleware/auth.go:29-30 | with a token cookie the Authorization header does not matter |
| AuthMiddleware.Authenticate | internal/middleware/auth.go:29-56 | a session exists iff a token is found and Parse accepts it under the constant key; it is the token's claims |
| AuthMiddleware.SessionKeys | internal/middleware/auth.go:61-65 | the five session keys are set from the claims and every other key is kept |
| AuthMiddleware.AuthRequired | internal/middleware/auth.go:24-75 | no session: redirect to "/", aborted, key store unchanged; a session: the five keys set from the claims, not aborted |
| AuthMiddleware.GetUserPermissions | internal/middleware/auth.go:109-116 | the stored flag map, or the empty map when it is absent or of another type |
| AuthMiddleware.CheckPermission | internal/middleware/auth.go:119-122 | true iff a flag map is stored and holds the permission set to true; false for a missing key |
| AuthMiddleware.SessionPermissionsAreClaims | internal/middleware/auth.go:64 | after AuthRequired, CheckPermission reads exactly the claims' flags |
| AuthMiddleware.RequirePermission | internal/middleware/auth.go:125-136 | when CheckPermission holds, nothing changes; otherwise 403 "Insufficient permissions" and abort |
| AuthHandlers.LoginPage | internal/handlers/auth.go:24-34 | a non-empty token cookie redirects to /dashboard whether or not it is valid; otherwise the login form |
| AuthHandlers.BindLogin | internal/handlers/auth.go:38-43 | binding succeeds iff both fields are present and non-empty |
| AuthHandlers.LoginDecision | internal/handlers/auth.go:43-80 | bind failure, validation failure and signing failure give their own error messages in that order; otherwise a token with the validated policy name and the freshly probed flags |
| AuthHandlers.ConsistentLoginGrantsAll | internal/handlers/auth.go:55-72 | with the same trial outcomes at validation and probe, every issued token has policy "admin" and all six flags |
| AuthHandlers.IssuedSessionIsAccepted | internal/handlers/auth.go:72-85 | an issued token that round-trips is accepted for the next hour with the user's credentials |
| AuthHandlers.LoginErrorPage | internal/handlers/auth.go:45-80 | HTML 200 with the login template, the login title and the message under "error", in the request's language |
| AuthHandlers.Login | internal/handlers/auth.go:37-89 | an error renders the form with its message and sets no cookie; success sets cookie "token" (max-age 3600, path "/", HttpOnly) and redirects to /dashboard |
| AuthHandlers.Logout | internal/handlers/auth.go:92-95 | the token cookie is overwritten with "" and max-age -1, then a redirect to "/" |
| Routes.Engine.constructor | main.go:54 | a new engine with no middleware and no route |
| Routes.Engine.Use | main.go:57 | appends one middleware to the engine's chain |
| Routes.Engine.Handle | main.go:88-196 | appends one route whose path is the group prefix plus the relative path and whose chain is the group's then the route's own |
| Routes.RouteTableGuarded | main.go:86-198 | every registered route is guarded: public routes run only the engine chain; every other runs it, then AuthRequired, then exactly the checks its path needs |
| Routes.ProtectedGuarded | main.go:98-99 | a protected route with own chain AuthRequired then exactly its checks is guarded |
| Routes.BucketTableGuarded | main.go:117-125 | every /buckets route needs canListBuckets; POST also canCreateBuckets, DELETE /:name canDeleteBuckets, PUT /:name/policy canManagePolicies |
| Routes.ManagementTableGuarded | main.go:128-175 | every /users, /groups, /service-accounts and /policies route needs exactly canManageUsers |
| Routes.UserTableGuarded | main.go:128-142 | every /users route is guarded with canManageUsers |
| Routes.GroupTableGuarded | main.go:145-154 | every /groups route is guarded with canManageUsers |
| Routes.ServiceAccountTableGuarded | main.go:157-164 | every /service-accounts route is guarded with canManageUsers |
| Routes.PolicyTableGuarded | main.go:167-175 | every /policies route is guarded with canManageUsers |
| Routes.ApiTableGuarded | main.go:181-196 | every /api route needs authentication and no flag |
| Routes.PublicTableGuarded | main.go:88-95 | /health, /, /login and /logout run only the engine chain |
| Routes.SetupPublicRoutes | main.go:88-95 | registers the four public routes, in order, and nothing else |
| Routes.SetupBucketRoutes | main.go:117-125 | registers the five bucket routes with their chains |
| Routes.SetupUserRoutes | main.go:128-142 | registers the eleven user routes with their chains |
| Routes.SetupGroupRoutes | main.go:145-154 | registers the six group routes with their chains |
| Routes.SetupServiceAccountRoutes | main.go:157-164 | registers the four service-account routes with their chains |
| Routes.SetupPolicyRoutes | main.go:167-175 | registers the five policy routes with their chains |
| Routes.SetupApiRoutes | main.go:181-196 | registers the nine API routes with their chains |
| Routes.SetupManagementRoutes | main.go:128-175 | registers the user, group, service-account and policy routes, in that order |
| Routes.SetupRoutes | main.go:86-198 | registers exactly RouteTable of the engine's chain, in order |
| Routes.RunChain | internal/middleware/auth.go:73 | running a chain reaches the handler iff Admitted holds for the request, and leaves the request aborted otherwise |
| Routes.ChecksAdmitted | internal/middleware/auth.go:125-136 | a run of permission checks after AuthRequired passes iff the session grants every permission named |
| Routes.GuardedAccess | main.go:88-196 | a request reaches a guarded route iff the route is public, or there is a valid session that grants every flag RequiredFlags names |
| Routes.NewRouter | main.go:54-75 | the language middleware on the engine, then RouteTable, all guarded |
| Routes.ApiPoliciesSkipsUserCheck | main.go:186 | GET /api/policies admits every session, while GET /policies admits only sessions with canManageUsers |
| Routes.Port | main.go:77-80 | the PORT value when it is set and non-empty, else "8080"; never empty |
| Language.PrimaryLanguage | internal/middleware/language.go:61-78 | the parsed language is a prefix of the first entry trimmed, without its quality suffix and lower-cased; it contains no ',', ';' or '-' and no upper-case ASCII letter |
| Language.EntryShape | internal/middleware/language.go:65-75 | trimming, the ';' cut, lower-casing and the '-' cut add no ',' to an entry without one, and leave no ';', '-' or upper-case ASCII letter |
| Language.ExampleFirstEntry | internal/middleware/language.go:63-65 | the first entry of "en-US;q=0.9,fr" is "en-US;q=0.9" |
| Language.ExampleTrim | internal/middleware/language.go:65 | trimming leaves "en-US;q=0.9" alone |
| Language.ExampleQualityCut | internal/middleware/language.go:67-69 | the quality cut of "en-US;q=0.9" is "en-US" |
| Language.ExamplePrimary | internal/middleware/language.go:71-74 | "en-US" lower-cased and cut at '-' is "en" |
| Language.PrimaryLanguageExample | internal/middleware/language.go:61-76 | "en-US;q=0.9,fr" gives "en" |
| Language.ParseAcceptLanguage | internal/middleware/language.go:61-78 | the step-by-step method computes the first entry, trimmed, cut at ';', ASCII-lower-cased, cut at '-' |
| Language.IsValidLanguage | internal/middleware/language.go:81-89 | true iff the language is in GetAvailableLanguages |
| Language.ResolvedIsAvailableOrDefault | internal/middleware/language.go:30-58 | the chosen language is an available one or "en" |
| Language.QueryHasPriority | internal/middleware/language.go:32-37 | a valid ?lang value decides alone |
| Language.UnavailableQuerySkipped | internal/middleware/language.go:33 | an unavailable ?lang value is skipped |
| Language.UnavailableCookieSkipped | internal/middleware/language.go:40-41 | a cookie naming an unavailable language is skipped |
| Language.UnavailableHeaderSkipped | internal/middleware/language.go:49-51 | an unavailable header language is skipped |
| Language.NoSourceGivesEnglish | internal/middleware/language.go:57 | with no available source the result is "en" |
| Language.ResolvedNonEmpty | internal/middleware/language.go:30-58 | when "" is not an available language the result is never empty |
| Language.GetLanguageFromRequest | internal/middleware/language.go:30-58 | the method computes the query > cookie > header > "en" choice, the header read by PrimaryLanguage |
| Language.LanguageMiddleware | internal/middleware/language.go:12-27 | stores the chosen language under "language" and sets a 30-day, non-HttpOnly cookie when it is non-empty |
| Language.GetLanguage | internal/middleware/language.go:92-97 | the stored language, "en" when none is stored |
| Language.MiddlewareLanguageIsRead | internal/middleware/language.go:15 | after the middleware GetLanguage returns the chosen language |
| Language.T | internal/middleware/language.go:100-103 | the registry's T in the request's language |
| Language.TWithParams | internal/middleware/language.go:106-120 | the pairing rule of Params in the request's language |
| Language.TWithCount | internal/middleware/language.go:123-126 | the registry's TWithCount in the request's language |
| Params.PairKeys | internal/middleware/language.go:112-116 | the map's keys are exactly the string keys of the pairs |
| Params.LastPairWins | internal/middleware/language.go:114 | a key holds the value of its last pair |
| Params.PairParams | internal/middleware/language.go:111-116 | the loop builds the map of all pairs |
| Params.TranslateWithParams | internal/middleware/language.go:110-119 | a positive, even count translates with the paired map; any other count falls back to plain T; either way the text is T's |
| I18n.Base | internal/i18n/i18n.go:55 | filepath.Base on '/' paths: "." for "", "/" for only slashes, else the last element, non-empty, without '/' |
| I18n.LanguageOfFile | internal/i18n/i18n.go:55 | the base name without a ".json" suffix |
| I18n.LanguageOfJsonFile | internal/i18n/i18n.go:45-55 | a file "dir/lang.json" registers language lang |
| I18n.LoadFile | internal/i18n/i18n.go:57-77 | an unreadable or unparsable file changes nothing; a parsed one gets a localizer and is appended only when not yet listed |
| I18n.LoadFiles | internal/i18n/i18n.go:53-79 | loading only adds: no localizer is dropped, the list is only appended to, and files that are all unreadable or unparsable change nothing |
| I18n.LoadFileKeepsConsistent | internal/i18n/i18n.go:71-76 | one file keeps the list duplicate-free and in step with the localizers |
| I18n.LoadFilesKeepsConsistent | internal/i18n/i18n.go:53-79 | all files keep the list duplicate-free, in step, and only growing |
| I18n.RegisteredAreParsed | internal/i18n/i18n.go:53-79 | the new localizers are exactly the languages of the parsed files |
| I18n.ParsedFileRegistered | internal/i18n/i18n.go:64-71 | every parsed file's language is registered |
| I18n.RegisteredFileParsed | internal/i18n/i18n.go:57-71 | every registered language comes from a parsed file |
| I18n.SliceContains | internal/i18n/i18n.go:211-218 | true iff the item is in the slice |
| I18n.Registry.constructor | internal/i18n/i18n.go:16-22 | an empty, uninitialised registry |
| I18n.Registry.Init | internal/i18n/i18n.go:25-37 | the default language becomes the only available language and the only localizer |
| I18n.Registry.LoadDir | internal/i18n/i18n.go:40-82 | before Init an error and no change; a listing failure is an error and no change; otherwise the tables become LoadFiles of the listing |
| I18n.Registry.GetAvailableLanguages | internal/i18n/i18n.go:203-208 | the list, duplicate-free, starting with the default language after Init |
| I18n.Registry.Localize | internal/i18n/i18n.go:100-102 | a message exists iff the language has one for the id |
| I18n.Registry.T | internal/i18n/i18n.go:85-128 | the requested language's message; else the default language's; else the id itself |
| I18n.Registry.TWithParams | internal/i18n/i18n.go:131-165 | the same fallback chain as T, with the parameter map as template data |
| I18n.Registry.TWithCount | internal/i18n/i18n.go:168-200 | the same fallback chain as T, with the count as plural count |
| I18n.Registry.UnknownLanguageUsesDefault | internal/i18n/i18n.go:92-97 | T of a language without a localizer is T of the default language |
| I18n.Registry.KeyReturnedOnlyWhenMissing | internal/i18n/i18n.go:104-123 | when no message equals the id, T returns the id iff neither language has the message |
| TemplateContext.Contexts.constructor | internal/handlers/template_context.go:9-15 | counter 0, empty table, current context 0 |
| TemplateContext.Contexts.SetTemplateContext | internal/handlers/template_context.go:18-29 | the counter advances by one modulo 2^64; the new id maps to the language; ids are fresh while the counter does not wrap |
| TemplateContext.Contexts.GetTemplateLanguage | internal/handlers/template_context.go:32-39 | the stored language, "en" for an unknown id |
| TemplateContext.Contexts.CleanupTemplateContext | internal/handlers/template_context.go:42-46 | removes only that id; its lookup gives "en" and every other id is unchanged |
| TemplateContext.Contexts.SetCurrentContext | internal/handlers/template_context.go:53-57 | sets the current id and nothing else |
| TemplateContext.Contexts.GetCurrentContext | internal/handlers/template_context.go:60-64 | the last id set, 0 initially |
| TemplateContext.Contexts.TranslateInTemplate | internal/handlers/template_context.go:67-71 | T in the current context's language |
| TemplateContext.Contexts.TranslateInTemplateWithParams | internal/handlers/template_context.go:74-88 | the pairing rule in the current context's language |
| TemplateContext.Contexts.TranslateInTemplateWithCount | internal/handlers/template_context.go:91-95 | TWithCount in the current context's language |
| TemplateContext.RenderLifeCycle | internal/handlers/template_context.go:18-46 | a registered id reads its language until cleanup, then "en" |
| TemplateHelpers.FillTemplateData | internal/handlers/template_helpers.go:61-120 | the four helper keys are always set; username, policy_name and permissions only when missing; no other caller key is removed or changed |
| TemplateHelpers.Stored | internal/handlers/template_helpers.go:111-116 | c.Get with a missing value read as nil |
| TemplateHelpers.RenderWithTranslations | internal/handlers/template_helpers.go:56-130 | renders HTML 200 with the caller's map (an empty one for nil) filled as FillTemplateData says, and changes nothing else |
| TemplateHelpers.NewTemplateData | internal/handlers/template_helpers.go:24-53 | language = GetLanguage, permissions = GetUserPermissions, the stored username and policy name, and translators in that language |
| TemplateHelpers.RenderAgreesWithTemplateData | internal/handlers/template_helpers.go:24-120 | a page without its own user entries gets the same language and user fields as NewTemplateData |
| Groups.JoinMembers | internal/services/minio_groups.go:134-138 | a successful add puts exactly that group into the list |
| Groups.WithoutMembers | internal/services/minio_groups.go:160-164 | a successful remove takes exactly that group out |
| Groups.RunAppend | internal/handlers/group.go:188-253 | running two call sequences in turn is running them joined |
| Groups.AddEffect | internal/handlers/group.go:190 | a successful add puts the group into each listed user's list |
| Groups.RemoveEffect | internal/handlers/group.go:198 | a successful remove takes the group out of each listed user's list |
| Groups.GroupService.constructor | internal/handlers/group.go:15-23 | the stand-in starts with the given table and failures and an empty log |
| Groups.GroupService.AddUsersToGroup | internal/services/minio_groups.go:123-146 | logs the call; on success applies it; returns the call's outcome |
| Groups.GroupService.RemoveUsersFromGroup | internal/services/minio_groups.go:149-172 | logs the call; on success applies it; returns the call's outcome |
| Groups.GroupService.GetUserInfo | internal/handlers/group.go:227 | logs the call; the user's groups or the configured error |
| Groups.UpdateCalls | internal/handlers/group.go:188-202 | a non-empty add list is added first; the removal is made iff the remove list is non-empty and no add failed |
| Groups.EmptyUpdateIsNoOp | internal/handlers/group.go:188-204 | both lists empty: no call and "Group members updated successfully" |
| Groups.FailedAddPreventsRemoval | internal/handlers/group.go:189-194 | a failed add is the last call and gives 500 "Failed to add users" |
| Groups.UpdateResponse | internal/handlers/group.go:188-204 | 200 with "Group members updated successfully" iff none of the calls UpdateCalls lists failed; otherwise 500 with an error body |
| Groups.ApplyMemberUpdate | internal/handlers/group.go:188-204 | the service side makes exactly UpdateCalls and answers UpdateResponse |
| Groups.UpdateMembership | internal/handlers/group.go:188-202 | with successful calls each added user gains the group and each removed user loses it |
| Groups.UpdateGroupMembers | internal/handlers/group.go:169-205 | 401 without credentials, 400 on a bad request, otherwise exactly UpdateCalls and UpdateResponse |
| Groups.TrimsToEmptyIffBlank | internal/handlers/group.go:245 | a name trims to "" iff it is all white space |
| Groups.RemoveCalls | internal/handlers/group.go:234-241 | one removal call per current group |
| Groups.FirstFailedAdd | internal/handlers/group.go:244-251 | a reported group is one whose add fails |
| Groups.GetUserFailureChangesNothing | internal/handlers/group.go:227-231 | a failing GetUser is the only call and leaves the table unchanged |
| Groups.EveryCurrentGroupIsRemoved | internal/handlers/group.go:234-241 | the removals cover every current group, continuing past failures |
| Groups.RemoveCallsEffect | internal/handlers/group.go:234-241 | successful removals clear exactly the current groups of that user |
| Groups.AddCallsUseRequestedNames | internal/handlers/group.go:244-246 | each add names a non-blank requested group, untrimmed, in request order |
| Groups.AddCallsStopAtFailure | internal/handlers/group.go:246-249 | only the last add can fail, and it is the first failing one |
| Groups.AddCallsEffect | internal/handlers/group.go:244-251 | successful adds put exactly the non-blank requested groups in |
| Groups.SetUserGroupsSetsExactly | internal/handlers/group.go:207-253 | when every call succeeds the user ends in exactly the non-blank requested groups |
| Groups.RemoveFromGroups | internal/handlers/group.go:234-241 | the loop makes RemoveCalls, in order |
| Groups.AddIfNamed | internal/handlers/group.go:245-246 | a name that trims to "" makes no call; any other is added, logged, and its outcome returned |
| Groups.AddToGroups | internal/handlers/group.go:244-251 | the loop makes AddCalls and reports FirstFailedAdd |
| Groups.NoFailedAddCall | internal/handlers/group.go:244-251 | there is no first failed add iff none of the add calls fails |
| Groups.SetUserGroupsResponse | internal/handlers/group.go:227-253 | 200 with "User groups updated successfully" iff GetUser and every add call succeed, whatever the removals did; otherwise 500 with an error body |
| Groups.ResetUserGroups | internal/handlers/group.go:227-253 | the service side makes exactly SetUserGroupsCalls and answers SetUserGroupsResponse |
| Groups.SetUserGroups | internal/handlers/group.go:208-254 | 401 without credentials, 400 on a bad request, otherwise ResetUserGroups |
| Flatten.ToMapContents | tools/convert_translations.go:27-31 | the table has the written keys, each with the message of its last pair |
| Flatten.MemberTable | tools/convert_translations.go:20-31 | a leaf member writes {"other": value} under its full key; an object member writes its flattened table |
| Flatten.MemberStep | tools/convert_translations.go:20-32 | flattening one more member adds its table over the result so far |
| Flatten.EmptyObjectAddsNothing | tools/convert_translations.go:21-26 | a member holding an empty object writes nothing |
| Flatten.CopyInto | tools/convert_translations.go:23-25 | the copy loop gives the old result overwritten by the nested table |
| Flatten.FlattenTranslations | tools/convert_translations.go:11-36 | the method computes the table of the written pairs, in order |
| Flatten.PathsStartAtKeys | tools/convert_translations.go:14-32 | every root-to-leaf path is non-empty and starts with a key of the object |
| Flatten.PathsDistinct | tools/convert_translations.go:14-32 | with distinct keys per object, the paths are distinct |
| Flatten.PathsDotFree | tools/convert_translations.go:14-32 | with no '.' in any key, no path element has one |
| Flatten.JoinInjective | tools/convert_translations.go:15-18 | joining dot-free paths with "." is injective |
| Flatten.CorrectedKeysAreJoinedPaths | tools/convert_translations.go:11-36 | with the corrected key rule every written key is a root-to-leaf path joined by ".", one pair per leaf, in visiting order |
| Flatten.NestedKeysAgree | tools/convert_translations.go:15-18 | below the top the code and the correction write the same keys |
| Flatten.AsWrittenAgreesWithCorrected | tools/convert_translations.go:15-18 | they differ only when a top-level member with key "" holds an object |
| Flatten.CorrectedKeepsEveryLeaf | tools/convert_translations.go:14-32 | corrected: with distinct keys and no '.', one output key per leaf |
| Flatten.FlattenKeepsEveryLeaf | tools/convert_translations.go:14-32 | as written: the same when no top-level "" key holds an object |
| Flatten.EmptyTopLevelKeyCollides | tools/convert_translations.go:15-18 | {"": {"a": "x"}, "a": "y"} keeps one of its two leaves as written and both with the correction |
| WebValidation.SingleAtom | web/static/js/main.js:144 | one repeated class matches iff the count is within bounds and every character is in the class |
| WebValidation.LastAtom | web/static/js/main.js:138 | a trailing one-character class matches the last character, the rest before it |
| WebValidation.FirstAtom | web/static/js/main.js:138 | a leading one-character class matches the first character |
| WebValidation.ClassesMeanWhatTheySay | web/static/js/main.js:138 | the three range lists are [a-z0-9], [a-z0-9-] and [a-zA-Z0-9] |
| WebValidation.ValidateBucketName | web/static/js/main.js:137-140 | accepts iff the length is 3..63, the first and last characters are in [a-z0-9] and every middle one in [a-z0-9-] |
| WebValidation.BucketNameMatches | web/static/js/main.js:138-139 | the regular expression matches exactly those names |
| WebValidation.RejectedBucketNames | web/static/js/main.js:138 | an upper-case letter, '.' or '_' anywhere, or a hyphen at either end, rejects the name |
| WebValidation.BucketNameTestCases | main_test.go:40-43 | "test-bucket" and "bucket123" pass; "Test-Bucket" and "ab" fail |
| WebValidation.JsLength | web/static/js/main.js:144 | UTF-16 length: between |s| and 2|s|, and equal to |s| iff every character is in the Basic Multilingual Plane |
| WebValidation.ValidateAccessKey | web/static/js/main.js:143-145 | accepts iff the length is 3..20 and every character is an ASCII letter or digit |
| WebValidation.ValidateSecretKey | web/static/js/main.js:148-150 | 8 characters always pass and 4 never do; within the Basic Multilingual Plane it accepts iff there are at least 8 |
| ValidateCli.MaskString | cmd/validate/main.go:79-84 | "****" for at most 4 bytes; otherwise the first two bytes, "****" and the last two, 8 bytes in all |
| ValidateCli.MaskRevealsOnlyEnds | cmd/validate/main.go:80-83 | the mask depends on nothing but the first two and last two bytes, and on nothing at all for at most 4 bytes |
| ValidateCli.GetEnvOrDefault | cmd/validate/main.go:86-91 | the same rule as the configuration's getEnv: the value when set and non-empty, else the default |
| Common.Atoi | internal/config/config.go:18 | strconv.Atoi with the error dropped: always in int64 range; for text that is not a signed decimal, the clamped int64 for the sign when the leading digits already pass 2^64-1 and 0 otherwise |
| Common.LeadingDigits | internal/config/config.go:18 | the longest digit prefix: all digits and followed by a non-digit or the end, where strconv.ParseUint stops |
| Common.LeadingDigitsOfDigits | internal/config/config.go:18 | a whole run of digits is read to its end |
| Common.LeadingDigitsBeforeNonDigit | internal/config/config.go:18 | reading stops at the first non-digit |
| Common.OverflowBeforeNonDigit | internal/config/config.go:18 | digits past 2^64-1 followed by junk give MaxInt64 and with '-' MinInt64 and not 0 |
| Common.NonDigitBeforeOverflow | internal/config/config.go:18 | text starting with a non-digit other than a sign gives 0 whatever its length |
| Common.OverflowExample | internal/config/config.go:18 | "18446744073709551616x" gives MaxInt64 |
| Common.AtoiRoundTrip | internal/config/config.go:18 | Atoi reads back the decimal text of every int64 |
| Common.DecimalRoundTrip | internal/config/config.go:18 | the digits of a natural number read back as that number |
| Common.TrimSpace | internal/middleware/language.go:65 | strings.TrimSpace: no white space at either end, and only characters of the input |
| Common.TrimSpaceNoEdges | internal/middleware/language.go:65 | a text with no white space at either end is left alone |
| Common.ToLower | internal/middleware/language.go:71 | every character is mapped on its own, upper-case ASCII letters to lower case, and the length is kept |
| Common.CutAt | internal/middleware/language.go:63-74 | the text before the first occurrence of the separator, all of it when there is none, and never containing it |
| Common.TrimPrefix | internal/middleware/auth.go:40 | strings.TrimPrefix: the rest after the prefix when there is one, else the text unchanged |
| Common.TrimSuffix | internal/i18n/i18n.go:55 | strings.TrimSuffix: the text before the suffix when there is one, else the text unchanged |
| Common.Wrap64 | internal/handlers/api.go:112-113 | int64 addition wraps into the int64 range and leaves in-range values alone |
| Common.WrapShift | internal/handlers/api.go:112-113 | wrapping changes a value by a multiple of 2^64 |
| Common.WrapCongruent | internal/handlers/api.go:112-113 | values 2^64 apart wrap to the same int64 |
| Common.WrapOfPartialSum | internal/handlers/api.go:112-113 | wrapping a partial sum before adding changes nothing, so a running int64 sum is the wrapped exact sum |
| Gin.Context.AbortWithStatus | main.go:54 | gin.Default's Recovery answer to a panic: status 500 and an empty body, the chain aborted |
| Config.GetEnv | internal/config/config.go:34-39 | the default or the set value; empty only if the default is empty |
| Config.EmptyCountsAsUnset | internal/config/config.go:35 | an empty value is the same as an unset one |
| Config.SetValueWins | internal/config/config.go:35-36 | a non-empty value wins over the default |
| Config.Load | internal/config/config.go:17-27 | timeout 60; SSL iff MINIO_USE_SSL is exactly "true"; the port is in int64 range |
| Config.LoadDefaults | internal/config/config.go:17-27 | with nothing set: localhost, 9000, no SSL, "your-secret-key", 60 |
| Config.NonNumericPort | internal/config/config.go:18 | a non-numeric MINIO_PORT gives port 0 with the conversion error dropped, unless its leading digits already overflow uint64: then the clamped int64 for the sign |
| Config.DecimalPortIsRead | internal/config/config.go:18 | a decimal MINIO_PORT within int64 is read back exactly |
| Config.GetMinIOEndpoint | internal/config/config.go:30-32 | host, ":", and the decimal port, which reads back as the port |

Members without a row are helpers with no counterpart of their own in the
source: the string and index facts of `Common` (ContainsTransitive, CutAtJoin, IndexOf,
IndexOfInPrefix, IndexOfAfterPrefix, NatToDecimal, TrimLeftSpace,
TrimRightSpace); the product step `ByteFormat.MulMonotone` of the exponent
loop; the accessors and writers of `Gin.Context` other than AbortWithStatus,
each of which sets or reads exactly one field; the list facts of `Flatten`
(DistinctKeysCount, JoinHasDot, Joined, JoinedAppend, KeysOfSnoc,
LeavesAppend, Prefixed, PrefixedJoined, ToMapAppend, ToMapKeys); the
membership-table steps of `Groups` (AddAndContinue, AddAndStop, AddFirst,
Join, OutcomeOf, RunOne, RunSnoc, SkipBlank, Without); the path helpers
`I18n.AfterLastSlash`, `I18n.AfterLastSlashOfJoin` and
`I18n.StripTrailingSlashes` behind I18n.Base; and the table-joining steps of
`Routes` (AllGuardedJoin, ManagedGuarded, PermissionsOfPair, RoutesJoin).

## Left out

- Network, cluster and library calls. minio.New, madmin.New, ListBuckets, ListUsers, GetUser, the group operations, HMAC signing and go-i18n's message lookup are inputs (`Outcome`s, maps, functions), because their code is not part of this model.
- go-i18n's template expansion and plural rules: `TWithParams` and `TWithCount` return the selected message with the data it would be run with, because that library is not modelled.
- Floating point. The "%.1f"/"%.0f" printing of formatBytes, main.js `Utils.formatBytes` (Math.log) and float division are kept as exact rationals. `ByteFormat.FormatBytesPanel` treats the float loop test as exact: for sizes above 2^53 float rounding could differ.
- Mutexes and concurrency in i18n.go and template_context.go. Every operation runs whole and alone, so the current-context slot is one shared field.
- Logging (log.Printf, fmt.Printf) has no effect on results and is dropped.
- Clocks. "Now" is a parameter; the scanner's context deadline is the elapsed time stored on each listing entry.
- The other browser code of main.js (toasts, clipboard, fetch wrapper, DOM listeners, sidebar) has no stateable logic.
- gin.Default's Logger middleware, static files, templates and the FuncMap placeholders are left out. Handlers are represented by name. Of the Recovery middleware only its answer to a panic in GetStorageUsage is modelled (`Gin.Context.AbortWithStatus`).
- gin route paths are segment sequences joined from group prefixes. path.Clean normalisation and path-parameter matching are not modelled.
- Routes.RunChain: c.Next() nesting is a sequential loop over the guards. That is the same as long as no guard does work after Next, which none of these does.
- Header-name canonicalisation and cookie unescaping are not modelled: a header or cookie is looked up by its exact name.
- Range over a Go map visits keys in an unspecified order: Flatten takes the members in the given order. When keys collide, which leaf wins therefore follows that order, where Go leaves it open.
- Groups.GroupService is a stand-in for the group operations of internal/services/minio_groups.go. Their bodies are not modelled; a call either fails with its configured error or has its set-like effect.
- Groups.FirstFailedAdd: its own contract only says that the reported group's add fails. That it is the first failing one is stated by Groups.AddCallsStopAtFailure.
- The handlers' other thin pass-throughs (bucket, user, policy, service-account and settings handlers) only forward to the service and are not modelled.
- Type assertions that would panic (`lang.(string)`, `username.(string)`) are excluded by the `LanguageTyped` and `CredentialsTyped` preconditions, because the handlers only ever store strings there.
- The `len(languages) > 0` fallback of parseAcceptLanguage is dead code (strings.Split never returns an empty slice), so "en" there is not modelled.
- Common.ToLower: only the ASCII letters A-Z are case-mapped. Go's strings.ToLower maps every Unicode letter (in Go "İT" gives "it", and the Kelvin sign followed by "O" gives "ko"); Unicode case tables are not part of this model.
- Language.PrimaryLanguage, Language.ParseAcceptLanguage: the lower-casing step is Common.ToLower, so a header whose first language holds non-ASCII upper-case letters is modelled with those letters kept.
- Language.GetLanguageFromRequest: its Accept-Language branch inherits the ASCII-only lower-casing of Language.PrimaryLanguage; the query and cookie branches are exact.
- Common.TrimSpace: its contract says that the ends are not white space and that no character is added; that exactly the leading and trailing white space is removed is stated by Common.TrimLeftSpace and Common.TrimRightSpace, which have no rows of their own.
- BucketStats.ObjectCount: the int64 `objectCount++` is counted without wrap-around; it would wrap only after 2^63 listed objects.
- Reading the translation files' JSON and writing the output file in convert_translations.go are I/O and left out; only flattenTranslations is modelled.

## Findings

| source | as written | input that shows it | evidently intended | confidence | as-written member | corrected member |
|---|---|---|---|---|---|---|
| internal/handlers/api.go:141-148 | the unit table has five entries, KB to PB, and is indexed by the exponent of the loop | bytes = 1024^6 = 1152921504606846976, a legal int64 total: the loop ends with exp = 5 and units[5] panics, so GetStorageUsage answers Recovery's bare 500 | every int64 size gets a unit; an "EB" unit completes the table | not executed | ByteFormat.FormatBytesApiAsWritten | ByteFormat.FormatBytesApi |
| tools/convert_translations.go:15-18 | a key is prefixed only when the prefix is non-empty, so the children of a top-level key "" lose their parent | {"": {"a": "x"}, "a": "y"}: two leaves, distinct keys, no dots, but both are written as "a" and one is lost | one output key per leaf; the nested one written as ".a" | not executed | Flatten.EmptyTopLevelKeyCollides | Flatten.CorrectedKeepsEveryLeaf |
