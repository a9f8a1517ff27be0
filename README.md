# Authentication core of a Next.js application, modelled in Dafny

This project models the client-side authentication of a Next.js application and its server-side registration endpoint:

- **Validators** (`AuthValidations`, `Patterns`): the field validators and the five form validators of `auth-validations.ts`. The two regular expressions are written as explicit patterns. A small backtracking matcher decides them, and lemmas relate it to a direct characterisation: the exact shape of an accepted e-mail, and the length, alphabet and first character of an accepted phone number.
- **Service** (`Auth`): `AuthService` is a class. Its `localStorage` is a `map<string, string>` and the presence of a browser window is a constant. What each HTTP request returns is a `Result` parameter. A ghost log records the endpoints requested, in order. The module also holds the pure helpers `formatAuthError` and `isTokenExpired`.
- **Session state machine** (`Provider`): the reducer `authReducer` as a function, and the actions each operation dispatches as specification functions. `AuthProvider` is a class whose `state` and dispatched-action log evolve exactly as those functions say.
- **Registration endpoint** (`RegisterApi`): the 405 → 400 → 400 → 409 → 201/500 decision sequence runs over a `Store` class. The store holds the user table and the append-only audit log. Which database steps throw is a parameter.
- **Route tables** (`AuthRoutes`, `LibRoutes`, `AppRoutes`): the three route files. `LibRoutes` and `AppRoutes` keep their two different route configurations and are not reconciled.

Three behaviours of the code that the model reproduces as written:

- `isTokenExpired` compares with a strict `<`, so a token whose `exp` equals the current time is not yet expired.
- The registration handler inserts the user row and then the audit row with no transaction, so a failing audit insert leaves the user row in place.
- `getStoredUser` calls `JSON.parse` on a non-empty `user_data` item, so a malformed item throws. `initializeAuth` then stops before dispatching anything.

Properties of the code worth knowing, all proved below:

- After a successful register, resetPassword, updatePassword or updateProfile, `isLoading` stays `true`.
- `shouldRedirect` of `src/route.ts` never redirects an authenticated user. None of its configuration keys (`/`, `/dashboard` and three `/auth/*` paths) is one of the `/login`-based paths the imported `isAuthRoute` accepts.
- In that same file, `validateRoute("/auth/login")` is false although the path has a configuration entry.

`src/lib/routes.ts` lines 1-46 repeat `src/lib/auth-routes.ts` verbatim. Those definitions are modelled once, in `AuthRoutes`, and `LibRoutes` imports them.

## Model

| member | source | states |
|---|---|---|
| AuthTypes.ApplyPatch | src/components/auth/AuthProvider.tsx:67-71 | each of the eight fields takes the patch's value when the patch has it and keeps the user's otherwise |
| AuthTypes.PatchOf | src/components/auth/AuthProvider.tsx:189-190 | patching any user `v` with the patch of `u` gives `u` itself, except that a phone or bio `u` lacks is kept from `v` |
| Patterns.EmailPatternIff | src/lib/auth/auth-validations.ts:3 | `emailRegex` accepts `s` iff `s` has an `@` after a non-empty local part, then a `.` with a non-empty run before and after it, and no other `@` or whitespace |
| Patterns.Matches | src/lib/auth/auth-validations.ts:3-4 | anchored matching of a pattern of bounded repetitions of character classes, the form both regular expressions are written in |
| Patterns.MatchesThenIff | src/lib/auth/auth-validations.ts:3-4 | the backtracking search agrees with the definition: a string matches iff some first block fits the head atom and the rest matches the remaining pattern |
| Patterns.PhoneMatchShape | src/lib/auth/auth-validations.ts:4 | every phone `phoneRegex` accepts has 9 to 23 characters, each a digit, whitespace or one of `+()-.` |
| Patterns.PhoneMatchLead | src/lib/auth/auth-validations.ts:4 | every accepted phone starts with `+` or with a digit 1-9 |
| Patterns.PhoneExample | src/lib/auth/auth-validations.ts:4 | `+1 (555) 123-4567` is accepted |
| AuthValidations.ValidateEmail | src/lib/auth/auth-validations.ts:16-24 | no error iff the e-mail is non-empty and has the e-mail shape; an empty e-mail gives the "required" message and a malformed one the "invalid" message |
| AuthValidations.ValidatePassword | src/lib/auth/auth-validations.ts:26-37 | no error iff the length is 6..128; otherwise one error on the given field name, with the "required", "too short" or "too long" message by length |
| AuthValidations.ValidateName | src/lib/auth/auth-validations.ts:39-50 | no error iff the length is 2..100, with the matching message otherwise |
| AuthValidations.ValidatePhone | src/lib/auth/auth-validations.ts:52-57 | an empty phone is accepted; a non-empty one is accepted iff the phone pattern matches, and then has the pattern's length, alphabet and first character |
| AuthValidations.Collect | src/lib/auth/auth-validations.ts:60-71 | the pushed errors are exactly the present checks' errors; none are pushed iff every check passes |
| AuthValidations.CollectInOrder | src/lib/auth/auth-validations.ts:74-94 | checks made in field order push their errors in field order |
| AuthValidations.ValidateLoginData | src/lib/auth/auth-validations.ts:59-72 | the errors are exactly the e-mail and password validators' errors, email before password; valid iff there are none iff both rules hold |
| AuthValidations.ValidateRegisterData | src/lib/auth/auth-validations.ts:74-94 | the errors are exactly the name, e-mail and password validators' errors plus the mismatch error when the confirmation differs, in that field order, at most 4; valid iff there are none iff all four rules hold |
| AuthValidations.ValidatePasswordResetData | src/lib/auth/auth-validations.ts:96-106 | the errors are the e-mail validator's error if it has one and nothing otherwise; valid iff the e-mail rule holds |
| AuthValidations.PasswordUpdateErrors | src/lib/auth/auth-validations.ts:108-124 | the collected errors are exactly the four checks' errors, each under its own condition |
| AuthValidations.PasswordUpdateValidity | src/lib/auth/auth-validations.ts:108-130 | nothing is collected iff a token or current password is given, the new password has 6..128 characters, the confirmation matches and the new password differs from the current one |
| AuthValidations.ValidatePasswordUpdateData | src/lib/auth/auth-validations.ts:108-130 | the errors are exactly: "current password required" iff neither token nor current password is given, the new-password validator's error on `newPassword`, the mismatch iff the confirmation differs, and "must differ" iff the current password equals the new one; each error comes from a later check than the one before, so the list runs current password, new password, mismatch, "must differ", with each check at most once; valid iff none applies |
| AuthValidations.PasswordUpdateNamedErrors | src/lib/auth/auth-validations.ts:111-124 | the "current password required", "must differ" and mismatch errors are collected exactly under their own conditions |
| AuthValidations.PasswordUpdateSlots | src/lib/auth/auth-validations.ts:111-124 | the collected password-update errors come from strictly later checks, in the order the source runs them |
| AuthValidations.ProfileValidity | src/lib/auth/auth-validations.ts:132-152 | the profile errors are empty iff the name and e-mail rules hold, the phone is empty or matches, and the bio has at most 500 characters |
| AuthValidations.ProfileFieldErrors | src/lib/auth/auth-validations.ts:132-152 | the profile errors are exactly the name, e-mail and phone validators' errors plus the bio error iff the bio exceeds 500 characters; an empty phone never yields a phone error |
| AuthValidations.ValidateProfileData | src/lib/auth/auth-validations.ts:132-152 | the errors are exactly the name, e-mail and phone validators' errors plus the bio error iff the bio exceeds 500 characters, in field order, at most 4; valid iff there are none iff all four rules hold |
| AuthValidations.Join | src/components/auth/AuthProvider.tsx:102 | the joined text's length is the parts' lengths plus one separator between each pair |
| AuthValidations.JoinContains | src/components/auth/AuthProvider.tsx:102 | every part occurs in the joined text |
| AuthValidations.JoinMessages | src/components/auth/AuthProvider.tsx:102 | no errors join to the empty text; one error joins to its own message |
| AuthValidations.JoinMessagesContains | src/components/auth/AuthProvider.tsx:102 | every error's message occurs in the joined session error |
| Auth.FormatAuthError | src/lib/auth/auth.ts:169-174 | an `Error` yields its message; anything else yields the fixed Spanish fallback |
| Auth.PasswordUpdateTarget | src/lib/auth/auth.ts:86-93 | the reset-confirmation endpoint iff a non-empty reset token is given, the password-update endpoint otherwise |
| Auth.IndexOf | src/lib/auth/auth.ts:178 | returns the position of the first `c`, or the length when there is none |
| Auth.PayloadSegment | src/lib/auth/auth.ts:178 | `split('.')[1]`: absent iff the token has no dot; otherwise the dot-free run after the first dot, up to the next dot or the end |
| Auth.IsTokenExpired | src/lib/auth/auth.ts:176-183 | a token with no payload segment, or an undecodable one, is expired; one whose `exp` converts to NaN is not; otherwise expired iff `exp * 1000 < now` |
| Auth.ExpiryIsStrict | src/lib/auth/auth.ts:179 | a token expiring exactly now is not expired; one millisecond later it is |
| Auth.Read | src/lib/auth/auth.ts:129-141 | an item is read iff a window exists and the key is stored, and it is the stored value |
| Auth.DecodeStoredUser | src/lib/auth/auth.ts:143-149 | a missing or empty item is no user; a parsable one is the parsed user; an unparsable one throws |
| Auth.WithAuthData | src/lib/auth/auth.ts:155-164 | the token and serialised user are stored; the refresh token is stored only when non-empty, otherwise the old one is kept; other keys are untouched |
| Auth.WithoutAuthData | src/lib/auth/auth.ts:121-127 | exactly the three session keys are removed; every other item is kept |
| Auth.StoredSessionReadsBack | src/lib/auth/auth.ts:155-164 | when parsing undoes serialising, reading back after a stored login gives the response's token and user |
| Auth.AuthService.constructor | src/lib/auth/auth.ts:17-25 | a service over the given store and window flag with an empty request log |
| Auth.AuthService.GetToken | src/lib/auth/auth.ts:129-134 | the stored token exactly when a window exists and one is stored |
| Auth.AuthService.GetRefreshToken | src/lib/auth/auth.ts:136-141 | the stored refresh token exactly when a window exists and one is stored |
| Auth.AuthService.GetStoredUser | src/lib/auth/auth.ts:143-149 | no user without a window or a non-empty item; otherwise the parsed user, or a throw when parsing fails |
| Auth.AuthService.IsAuthenticated | src/lib/auth/auth.ts:151-153 | true iff a window exists and a token is stored, even an empty one |
| Auth.AuthService.SetAuthData | src/lib/auth/auth.ts:155-164 | the store becomes `WithAuthData` of the old store in a browser and is unchanged otherwise |
| Auth.AuthService.Logout | src/lib/auth/auth.ts:121-127 | the store becomes `WithoutAuthData` of the old store in a browser; afterwards every getter yields nothing and the service is not authenticated |
| Auth.AuthService.Login | src/lib/auth/auth.ts:60-68 | requests the login endpoint; on success the session is stored; the reply is returned unchanged |
| Auth.AuthService.Register | src/lib/auth/auth.ts:70-77 | requests the register endpoint and never writes the store |
| Auth.AuthService.ResetPassword | src/lib/auth/auth.ts:79-84 | requests the reset endpoint and never writes the store |
| Auth.AuthService.UpdatePassword | src/lib/auth/auth.ts:86-93 | requests `PasswordUpdateTarget(data)` and never writes the store |
| Auth.AuthService.UpdateProfile | src/lib/auth/auth.ts:95-100 | requests the profile endpoint and never writes the store |
| Auth.AuthService.GetCurrentUser | src/lib/auth/auth.ts:102-104 | requests the current-user endpoint and never writes the store |
| Auth.AuthService.RefreshToken | src/lib/auth/auth.ts:106-119 | without a non-empty refresh token it throws "No refresh token available" with no request and no store change; otherwise requests the refresh endpoint and stores the session on success |
| Provider.Reduce | src/components/auth/AuthProvider.tsx:30-75 | every action keeps "authenticated iff a user is present" |
| Provider.Run | src/components/auth/AuthProvider.tsx:78 | the state after dispatching a sequence of actions in order |
| Provider.RunSnoc | src/components/auth/AuthProvider.tsx:78 | dispatching one action more applies the reducer once more to the state so far |
| Provider.RunConsistent | src/components/auth/AuthProvider.tsx:30-75 | any sequence of dispatches keeps "authenticated iff a user is present" |
| Provider.InitialStateConsistent | src/components/auth/AuthProvider.tsx:23-28 | the initial state has no user, is not loading, and is consistent |
| Provider.FailureAndLogout | src/components/auth/AuthProvider.tsx:46-61 | a failure leaves no user, not authenticated, not loading, with its message; a logout does the same with no error |
| Provider.ClearErrorOnlyClears | src/components/auth/AuthProvider.tsx:62-66 | clearing the error changes nothing else, is idempotent, and is a no-op on a state without an error |
| Provider.UpdateProfileMerges | src/components/auth/AuthProvider.tsx:67-71 | a profile update without a user changes nothing; with one it merges the patch; the flags and error never change |
| Provider.Attempt | src/components/auth/AuthProvider.tsx:99-116 | invalid input dispatches only a failure with the joined messages; valid input dispatches a start, then a failure with the formatted message if the service throws, or the operation's success actions if it answers |
| Provider.LoginActions | src/components/auth/AuthProvider.tsx:99-116 | the template with the login validator and `AUTH_SUCCESS` of the reply's user on success |
| Provider.RegisterActions | src/components/auth/AuthProvider.tsx:118-134 | the template with the register validator and nothing after the start on success |
| Provider.ResetPasswordActions | src/components/auth/AuthProvider.tsx:141-158 | the template with the reset validator and `CLEAR_ERROR` on success |
| Provider.UpdatePasswordActions | src/components/auth/AuthProvider.tsx:160-177 | the template with the password-update validator and `CLEAR_ERROR` on success |
| Provider.UpdateProfileActions | src/components/auth/AuthProvider.tsx:179-196 | the template with the profile validator and `UPDATE_PROFILE` with the reply's user on success |
| Provider.InitFetches | src/components/auth/AuthProvider.tsx:82-85 | initialisation fetches iff reading the stored user does not throw, a user is stored and the token is non-empty |
| Provider.InitActions | src/components/auth/AuthProvider.tsx:80-97 | nothing unless it fetches; then `AUTH_SUCCESS` of the fetched user, or `AUTH_LOGOUT` when the fetch throws |
| Provider.InvalidInputFails | src/components/auth/AuthProvider.tsx:100-105 | after invalid input the session has no user, is not loading and holds the joined messages, whatever the service would answer |
| Provider.ServiceFailureFails | src/components/auth/AuthProvider.tsx:111-114 | after a service failure the session has no user, is not loading and holds the formatted message |
| Provider.LoginSuccess | src/components/auth/AuthProvider.tsx:107-110 | a successful login ends authenticated as the response's user, not loading, with no error |
| Provider.RegisterSuccessStaysLoading | src/components/auth/AuthProvider.tsx:126-133 | a successful register leaves the session loading with no error and the user unchanged |
| Provider.ResetSuccessStaysLoading | src/components/auth/AuthProvider.tsx:149-152 | a successful password reset leaves the session loading with no error |
| Provider.UpdatePasswordSuccessStaysLoading | src/components/auth/AuthProvider.tsx:168-171 | a successful password update leaves the session loading with no error |
| Provider.ProfileSuccessMerges | src/components/auth/AuthProvider.tsx:187-190 | a successful profile update stays loading; with a user present the session user becomes the response's user, keeping the old phone or bio only where the response has none; without one there is still no user |
| Provider.ShortPasswordRegister | src/components/auth/AuthProvider.tsx:118-124 | registering with a 3-character password dispatches only a failure, and the session error contains the "too short" message |
| Provider.InitUsesFetchedUser | src/components/auth/AuthProvider.tsx:85-88 | with a stored user and a token, initialisation installs the fetched user and not the stored copy |
| Provider.InitFailureLogsOut | src/components/auth/AuthProvider.tsx:85-93 | a failing fetch logs out; without a stored user and a token the state is unchanged whatever the fetch would say |
| Provider.AuthProvider.constructor | src/components/auth/AuthProvider.tsx:78 | starts in the initial state with nothing dispatched |
| Provider.AuthProvider.Dispatch | src/components/auth/AuthProvider.tsx:78 | the state is reduced by the action and the action is logged |
| Provider.AuthProvider.Login | src/components/auth/AuthProvider.tsx:99-116 | dispatches exactly `LoginActions`; rethrows the service's error after valid input; invalid input never touches the service; valid input requests login and stores the session on success |
| Provider.AuthProvider.Register | src/components/auth/AuthProvider.tsx:118-134 | dispatches exactly `RegisterActions`; the store is never written; a request is sent only after valid input |
| Provider.AuthProvider.Logout | src/components/auth/AuthProvider.tsx:136-139 | clears the stored session and ends in the logged-out state |
| Provider.AuthProvider.ResetPassword | src/components/auth/AuthProvider.tsx:141-158 | dispatches exactly `ResetPasswordActions`; the store is never written; a request is sent only after valid input |
| Provider.AuthProvider.UpdatePassword | src/components/auth/AuthProvider.tsx:160-177 | dispatches exactly `UpdatePasswordActions`; the request goes to `PasswordUpdateTarget(data)` and only after valid input |
| Provider.AuthProvider.UpdateProfile | src/components/auth/AuthProvider.tsx:179-196 | dispatches exactly `UpdateProfileActions`; the store is never written; a request is sent only after valid input |
| Provider.AuthProvider.ClearErrorAction | src/components/auth/AuthProvider.tsx:198-200 | only the error is cleared |
| Provider.AuthProvider.InitializeAuth | src/components/auth/AuthProvider.tsx:80-97 | dispatches exactly `InitActions` of the stored user and token; fetches only when a stored user and a non-empty token are both present; a failed fetch clears the store |
| RegisterApi.AuditEntry | src/pages/api/register.ts:67-82 | the audit row carries the given date, view `/register`, event `insert`, element `register-form-submit`, no acting user and no previous values; it records the new id, name and e-mail, with the password replaced by `[ENCRYPTED]` |
| RegisterApi.Precheck | src/pages/api/register.ts:25-39 | no early answer iff the request is a POST with a body whose three fields are non-empty and whose password has at least 6 characters; an early answer is 405, 400 or 500 with no user id, and a 400 only for a POST with a body |
| RegisterApi.Outcome | src/pages/api/register.ts:25-117 | the answer given the lookup result, the next id and the failing database steps: the early answer, then 500 for a failed connection or lookup, 409 for a known e-mail, 500 for a failed insert, else 201 with the new id |
| RegisterApi.InsertsUser | src/pages/api/register.ts:41-64 | the user row is written iff the pre-checks pass, the connection and lookup succeed, the e-mail is new and the user insert succeeds |
| RegisterApi.InsertsAudit | src/pages/api/register.ts:84-97 | the audit row is written iff the user row is and the audit insert succeeds |
| RegisterApi.NonPostRejected | src/pages/api/register.ts:25-27 | a method other than POST gives 405 and writes nothing |
| RegisterApi.MissingFieldFirst | src/pages/api/register.ts:33-35 | a missing or empty name, e-mail or password gives 400 "required", whatever the password length |
| RegisterApi.PasswordRule | src/pages/api/register.ts:37-39 | with all fields present, the answer is 400 iff the password is shorter than 6; no other rule rejects before the database |
| RegisterApi.DuplicateRejected | src/pages/api/register.ts:44-51 | a known e-mail gives 409 and inserts neither row |
| RegisterApi.CreatedIff | src/pages/api/register.ts:99-102 | 201 iff the pre-checks pass, the e-mail is new and no database step throws; then the reported id is the new row's and the audit row is written |
| RegisterApi.AuditFailureKeepsUser | src/pages/api/register.ts:85-117 | a failing audit insert answers 500 while the user row stays written |
| RegisterApi.StatusCodes | src/pages/api/register.ts:21-117 | the status is one of 201, 400, 405, 409 or 500, and a user id is reported iff it is 201 |
| RegisterApi.Store.constructor | src/pages/api/register.ts:41 | an empty user table and audit log |
| RegisterApi.Store.InsertUser | src/pages/api/register.ts:58-64 | appends one row with the next id and returns that id; ids stay increasing and e-mails stay unique |
| RegisterApi.Store.AppendAudit | src/pages/api/register.ts:85-97 | appends the row to the audit log and nothing else |
| RegisterApi.Store.Handle | src/pages/api/register.ts:21-117 | answers `Outcome` of the request and the old lookup; appends the user row (hashed password) and the audit row exactly as `InsertsUser` and `InsertsAudit` say; advances the id counter iff a user row is written; keeps ids increasing and e-mails unique |
| AuthRoutes.SomePrefix | src/lib/auth-routes.ts:33 | true iff some listed route is a prefix of the path |
| AuthRoutes.IsProtectedRoute | src/lib/auth-routes.ts:32-34 | true iff the path starts with `/dashboard`, `/profile` or `/settings` |
| AuthRoutes.IsPublicRoute | src/lib/auth-routes.ts:36-38 | true iff the path is one of the five public paths exactly |
| AuthRoutes.IsAuthRoute | src/lib/auth-routes.ts:40-42 | true iff the path is one of the four auth paths exactly |
| AuthRoutes.GetRedirectUrl | src/lib/auth-routes.ts:44-46 | `/dashboard` iff the key is `afterLogin`, `/login` for every other key |
| AuthRoutes.ProtectionIsPrefix | src/lib/auth-routes.ts:10-14 | `/profile/edit` and `/dashboard2` are protected; `/` and `/login` are not |
| AuthRoutes.MembershipIsExact | src/lib/auth-routes.ts:36-42 | `/login/` is neither public nor an auth route; `/` is public but not an auth route |
| AuthRoutes.AuthRoutesArePublic | src/lib/auth-routes.ts:16-22 | every auth route is public |
| AuthRoutes.PublicIsNotProtected | src/lib/auth-routes.ts:10-22 | no public path is protected |
| AuthRoutes.AuthPagesClassified | src/lib/auth-routes.ts:1-8 | the login, register and password pages are public; the profile page is protected |
| LibRoutes.GetRouteConfig | src/lib/routes.ts:107-109 | a configuration exists for exactly five paths; it names its own path, and it requires auth iff it has a redirect target |
| LibRoutes.ShouldRedirect | src/lib/routes.ts:111-130 | the result is nothing, `/login` or `/dashboard`, and nothing for an unconfigured path |
| LibRoutes.ValidateRoute | src/lib/routes.ts:132-135 | true iff the path is public or protected |
| LibRoutes.ShouldRedirectIff | src/lib/routes.ts:111-130 | `/login` iff signed out on `/dashboard` or `/profile`; `/dashboard` iff signed in on `/login` or `/register` |
| LibRoutes.ShouldRedirectExamples | src/lib/routes.ts:121-127 | `/dashboard` and `/profile` send a signed-out user to `/login`, `/login` and `/register` send a signed-in user to `/dashboard`, and there is no redirect for `/settings`, `/passwdReset` and a signed-in `/profile` |
| LibRoutes.TablesExtendAuthTables | src/lib/routes.ts:48-68 | `appRoutes` and `redirects` contain every auth entry, plus the three fixed redirect targets |
| AppRoutes.GetRouteConfig | src/route.ts:71-73 | a configuration exists for exactly the five `/`, `/dashboard` and `/auth/*` paths |
| AppRoutes.ShouldRedirect | src/route.ts:75-94 | a signed-in user is never redirected; a signed-out one is sent to `/auth/login` iff on `/dashboard` or `/auth/profile` |
| AppRoutes.ValidateRoute | src/route.ts:96-99 | true iff the path is public or protected by the imported lists |
| AppRoutes.ConfigAndValidationDisagree | src/route.ts:41-99 | `/auth/login` is configured but not valid; `/login` is valid but not configured |
| AppRoutes.UnconfiguredPathsNeverRedirect | src/route.ts:71-94 | `/login` and `/profile` never redirect; `/dashboard` and `/auth/profile` send a signed-out user to `/auth/login` |
| AppRoutes.TablesExtendAuthTables | src/route.ts:12-32 | `appRoutes` and `redirects` contain every auth entry, plus `/`, `/404` and `/500` |

## Left out

- `makeRequest`, `fetch`, the API base URL and the request headers: network I/O. Each operation takes the reply, success value or thrown error, as a parameter, and logs the endpoint it requests.
- The `AuthService.getInstance` singleton: every provider is given its service explicitly.
- Asynchrony: operations of the provider run to completion one at a time. Interleaved promises and React re-rendering are not modelled; a rethrown error is returned as `thrown`.
- `JSON.stringify`/`JSON.parse` of users are abstract functions. The stored text `"null"` parsing to `null` is not distinguished from a parse failure.
- Auth.MalformedJson: the `SyntaxError` message of `JSON.parse` depends on the JavaScript engine, so a fixed placeholder text stands for it.
- Auth.IsTokenExpired: `atob` and `JSON.parse` of the payload are one abstract decoder. It yields `Some(n)` when JavaScript's number conversion of `exp` gives the integer `n` (so `null`, `""` and `false` give 0, and a token with such an `exp` is expired). It yields `None` only when that conversion gives NaN, as for a missing `exp`, an object or a non-numeric string. Fractional and infinite `exp` values are not modelled.
- Lengths: JavaScript `length` counts UTF-16 code units, while Dafny counts characters. The two differ for characters outside the Basic Multilingual Plane.
- `createdAt`/`updatedAt` are integers rather than `Date` objects.
- `routeConfig[pathname] || null` can find inherited object properties such as `constructor`; the configuration is a finite map here.
- RegisterApi: the SQL text and the database's collation are abstract. `emailKey` stands for the collation the duplicate lookup compares under, and `hash` for `hashPassword`. The timestamp is a parameter. Console logging and the development-only error detail of the 500 body are omitted. Body fields that are not strings are not modelled. `aud_values2` is a structured record rather than its JSON text.
- The form components, pages and the `useAuth` hook are rendering glue and not part of this model.
