# Authentication and session integrity of the URA backend, in Dafny

This project models the authentication core of the URA v2 backend (an Express/Mongoose service
written in TypeScript) and proves properties of that model. The modelled parts are:

- the two authentication controllers: the hand-rolled one and the passport-based one that the
  router mounts. They cover register, e-mail verification, login, refresh, 2FA enable/disable,
  logout and the Google OAuth callback;
- the three passport strategies:
  - local credentials;
  - the JWT gate, which consults the revocation store;
  - the Google link-or-create resolver;
- the two authorization gates;
- the token service: access and refresh JWTs under two secrets, and the hashed, 24-hour e-mail token;
- the token blacklist (revocation store) and its service;
- the user and blacklist collections with their schema constraints: unique and sparse keys,
  lowercased trimmed e-mail, defaults, required paths, hidden paths and `save()` of modified paths;
- the error classes and the error-to-HTTP mapping, including the 404 handler, and how Express hands errors to that mapping;
- the request validation middleware and the Joi schemas it runs (auth, user and common validators).

Cryptography is kept abstract. bcrypt, JWT sign/verify, SHA-256, TOTP and QR generation are
function-valued fields of `Crypto.Primitives`. The ghost predicate `Crypto.Sound` states the small
facts the proofs rely on:
- a signed token verifies under its own secret before expiry, and fails with "jwt expired" after it;
- a token verifies only under the secret it was signed with.

Random bytes, salts, the generated 2FA secret, the clock (`now`, in milliseconds) and the
reachability of the database are all parameters.

The mutable parts take the source's form:
- `UserModel.UserCollection` and `TokenBlacklistModel.BlacklistCollection` are classes whose
  abstract state is a `Store` / `Blacklist` value, read through `State()`.
- `Requests.Request` carries `req.user` and `req.token`.
- The handlers are methods. Each is proved equal to a specification function of the old state
  (`RegisterOutcome`, `LoginOutcome`, `GoogleResolution`, …).
- The lemmas state the source's promises about those functions.

The validators are pure predicates over a request part, which is modelled as a list of
(key, value) fields. The Joi semantics they need are modelled in module `Joi`:
- trim, then the required / empty / null checks, then every rule in order (`abortEarly: false`);
- labels and messages;
- unknown keys refused;
- `object.min`.

## Model

| member | source | states |
|---|---|---|
| AuthController.Register | src/controllers/auth.controller.ts:18-50 | Result and new store are those of the register specification. The (address, plaintext token) pair goes to the mailer exactly when a record was created |
| AuthController.RegisterRefusesTakenEmail | src/controllers/auth.controller.ts:22-25 | When a record already holds the normalised address, register fails with ValidationError 'Email already in use' and the store is unchanged |
| AuthController.RegisterCreates | src/controllers/auth.controller.ts:27-49 | Otherwise register adds exactly one record, under the next id. The record has the normalised e-mail and the given names. Its password is the cost-12 bcrypt hash only when a password was given. It holds the SHA-256 of the 64-character mailed token, expires at now + 86 400 000 ms, is unverified and has no 2FA. The store invariant is kept. The answer is 201 when the mail goes out; when it fails, it is the mailer's 'Error sending verification email: …' error, with the record stored all the same |
| AuthController.RegisterThenRetryRefused | src/controllers/auth.controller.ts:22-44 | After a registration, whether or not its mail was sent, registering the same address again is refused with 'Email already in use' and writes nothing |
| AuthController.VerifyEmail | src/controllers/auth.controller.ts:52-82 | Result and new store are those of the verification specification |
| AuthController.VerifyEmailSucceedsIff | src/controllers/auth.controller.ts:53-81 | For a non-empty token: success iff some record stores sha256(token) with an expiry strictly after now. On success the first such record becomes verified with both token fields cleared, and nothing else changes |
| AuthController.VerifyEmailOneShot | src/controllers/auth.controller.ts:72-76 | After a successful verification, the same token fails with 'Invalid or expired verification token' at any later time and writes nothing, when no other record stores the same hash (the token comes from 32 random bytes) |
| AuthController.Login | src/controllers/auth.controller.ts:84-145 | Result and new store are those of the login specification |
| AuthController.LoginFailureWritesNothing | src/controllers/auth.controller.ts:88-120 | Every failed login leaves the store unchanged |
| AuthController.LoginCredentialFailures | src/controllers/auth.controller.ts:88-97 | Unknown e-mail, record without a hash and wrong password all give the same AuthenticationError 'Invalid credentials' and write nothing |
| AuthController.LoginCheckOrder | src/controllers/auth.controller.ts:94-120 | With a correct password: an unverified record fails with 'Please verify your email before logging in'. With 2FA enabled, it fails with '2FA code required' iff no code is given; with a code it passes iff TOTP verification (window 1) accepts it. With 2FA disabled it passes whatever code is sent |
| AuthController.LoginSucceeds | src/controllers/auth.controller.ts:88-144 | Login succeeds iff every check passes. Then only lastLoginAt of that record is written, and the response carries the public profile. The access token verifies, until its expiry, to the record's id and e-mail |
| AuthController.LoginOnRecord | src/controllers/auth.controller.ts:88-144 | For the record found by the normalised e-mail, login either fails with the first failing check and leaves the store as it was, or returns the projected record and writes lastLoginAt = now into that record alone |
| AuthController.RefreshFailures | src/controllers/auth.controller.ts:147-166 | A missing token gives ValidationError 'Refresh token is required'. Otherwise the result is AuthenticationError 'Invalid or expired refresh token' exactly when verification under the refresh secret fails |
| AuthController.RefreshRoundTrip | src/controllers/auth.controller.ts:147-162 | A live refresh token yields an access token that verifies as an access token with the same userId and e-mail. When the secrets differ, an access token offered for refresh is refused |
| AuthController.Enable2FA | src/controllers/auth.controller.ts:168-192 | Result and store are those of the enable specification, and req.user carries the enabled record |
| AuthController.Disable2FA | src/controllers/auth.controller.ts:194-210 | Result and store are those of the disable specification, and req.user carries the disabled record |
| AuthController.TwoFactorToggles | src/controllers/auth.controller.ts:168-210 | Enable sets twoFactorEnabled and the generated secret together, answering with the secret and the QR data URL of its key URI for 'URA (<email>)'. Disable clears both. Both keep "secret present iff enabled". Without a user both fail with 'User not authenticated' and write nothing |
| AuthController.EnableThenLoginChecks | src/controllers/auth.controller.ts:176-182 | Once 2FA is enabled on a verified account, a login with the right password and the code an authenticator shows for the new secret passes every check, and one without a code fails with '2FA code required' |
| AuthController.SaveKeepsTwoFactorConsistent | src/controllers/auth.controller.ts:180-204 | A save that writes the two 2FA paths together, consistently, keeps "secret present iff enabled" |
| AuthController.LoginKeepsTwoFactorConsistent | src/controllers/auth.controller.ts:122-124 | Login's write keeps "secret present iff enabled" |
| AuthController.VerifyEmailKeepsTwoFactorConsistent | src/controllers/auth.controller.ts:72-76 | E-mail verification's write keeps "secret present iff enabled" |
| AuthController.RevokeSession | src/controllers/auth.controller.ts:225-246 | The blacklist becomes the logout specification of the old one: sequential inserts, the refresh insert in its own catch, everything inside the outer catch |
| AuthController.Logout | src/controllers/auth.controller.ts:212-252 | Without a user: 'User not authenticated' and no write. Otherwise 200 'Logged out successfully', and the blacklist is the logout specification with the request's access token and the body's refresh token |
| AuthController.LogoutRevokesBoth | src/controllers/auth.controller.ts:226-242 | With two live, distinct, unrevoked tokens, exactly those two entries are added, with their kinds, the user id and expiresAt = exp * 1000. Every other entry is unchanged |
| AuthController.LogoutFailureHandling | src/controllers/auth.controller.ts:225-246 | If the access token fails to verify, nothing is blacklisted, not even the refresh token. An invalid refresh token is skipped |
| AuthController.LogoutOnlyAdds | src/controllers/auth.controller.ts:225-246 | Logout removes no entry and leaves the revoked status of every other token unchanged |
| AuthController.HandRolledLogoutKeepsAccessToken | src/controllers/auth.controller.ts:214-231 | With no req.token (the hand-rolled gate never sets it), logout leaves the access token's revoked status unchanged |
| AuthMiddleware.HeaderTokenExact | src/middleware/auth.ts:12-14 | A token is taken iff the header is exactly 'Bearer ' followed by it, and it is non-empty (case-sensitive scheme, the rest after 7 characters) |
| AuthMiddleware.RequireAuth | src/middleware/auth.ts:6-25 | next() iff the gate admits a user, else AuthenticationError 'Unauthorized'. req.user is assigned only on success and req.token never |
| AuthMiddleware.AdmissionIff | src/middleware/auth.ts:12-24 | Admitted iff there is a bearer token, it verifies under the access secret, the store is reachable and the userId exists. The admitted user is the default read of that record. Every failure is 401 'Unauthorized' |
| AuthMiddleware.RevokedTokenPassesHandRolledGate | src/middleware/auth.ts:16-21 | A live blacklisted token is admitted by this gate, yet the JWT strategy refuses it with 'Token has been revoked' |
| AuthMiddleware.SchemeCaseDiffers | src/middleware/auth.ts:13 | 'bearer x' is refused here but accepted by passport-jwt's extractor |
| AuthMiddleware.TrailingWordsDiffer | src/middleware/auth.ts:13 | Here the whole remainder after 'Bearer ' is the token; passport-jwt keeps only its first word |
| PassportAuthMiddleware.RequireAuth | src/middleware/passport-auth.ts:9-23 | The outcome is the callback's decision on the JWT strategy's verdict. req.user becomes the principal only when accepted and is untouched on every failure |
| PassportAuthMiddleware.DecideAnswers | src/middleware/passport-auth.ts:11-21 | next() iff accepted. A strategy error is forwarded unchanged. A rejection is 401 AUTHENTICATION_ERROR with the strategy's message, or 'Unauthorized' when it gave none |
| PassportAuthMiddleware.RevokedAnswer | src/middleware/passport-auth.ts:15-17 | A revoked token is answered 401 'Token has been revoked' |
| PassportAuthMiddleware.ExpiredAnswer | src/middleware/passport-auth.ts:15-17 | An expired token is answered 401 with the library's message 'jwt expired' |
| PassportConfig.LocalRejections | src/config/passport.config.ts:20-41 | For non-empty credentials there is an error iff the store is unreachable. The result is 'Invalid credentials' iff the first record with that e-mail is missing, has no hash, or fails bcrypt |
| PassportConfig.LocalAcceptsUnverified | src/config/passport.config.ts:22-38 | A correct password is accepted whatever emailVerified says, and the document carries the password and 2FA selection |
| PassportConfig.BearerToken | src/config/passport.config.ts:52 | What the bearer extractor yields is one whitespace-free word |
| PassportConfig.BearerHeader | src/config/passport.config.ts:52 | 'Bearer t' and 'bearer t' both yield t |
| PassportConfig.BearerIgnoresRest | src/config/passport.config.ts:52 | Words after the token are ignored |
| PassportConfig.JwtAcceptance | src/config/passport.config.ts:49-84 | Accepted iff there is a bearer token that verifies under the access secret, both stores are reachable, the token is not blacklisted and its user exists. The principal is the default read of the user plus the raw token |
| PassportConfig.JwtRevokedBeforeLookup | src/config/passport.config.ts:65-69 | A blacklisted token is rejected with 'Token has been revoked' whatever the user store holds |
| PassportConfig.JwtRejectsRefreshSecret | src/config/passport.config.ts:53 | While the secrets differ, no token signed with the refresh secret is accepted |
| PassportConfig.JwtStoreFailures | src/config/passport.config.ts:79-81 | An unreachable blacklist, or an unreachable user store behind an unrevoked token, is an error, never a user |
| PassportConfig.GoogleErrorsWriteNothing | src/config/passport.config.ts:96-129 | The resolver never rejects, and it writes only when it returns a user |
| PassportConfig.GoogleResolve | src/config/passport.config.ts:96-130 | Verdict and new store are those of the resolution specification |
| PassportConfig.GoogleKnownUser | src/config/passport.config.ts:99 | A record with the profile's googleId is returned with no write |
| PassportConfig.GoogleLinksByEmail | src/config/passport.config.ts:101-112 | Else the first record with the first profile e-mail is returned and gets googleId and emailVerified = true. Its profilePicture is set only when it had none and the profile has a photo. Nothing else changes |
| PassportConfig.GoogleWithoutEmailFails | src/config/passport.config.ts:99-126 | A profile without e-mails, for an unlinked Google id, is linked to no stored record. The create fails on the required email, the resolver reports that error and nothing is written |
| PassportConfig.LinkedIsFound | src/config/passport.config.ts:99-112 | Once a record is linked, the lookup by that Google id finds it |
| PassportConfig.GoogleCreates | src/config/passport.config.ts:113-122 | Else a record is created under the next id. It is verified, linked and has no password. Its names are givenName / first word of displayName / 'User' and familyName / second word / ''. A failed create writes nothing |
| PassportConfig.GoogleOneWordNameFails | src/config/passport.config.ts:115-122 | With no familyName and a one-word displayName, lastName is '', the required-path check fails and nothing is written |
| PassportConfig.GoogleIdempotent | src/config/passport.config.ts:99-126 | Resolving the same profile again on the resulting store returns the same verdict and writes nothing more |
| PassportConfig.RelinkIsLookup | src/config/passport.config.ts:99-112 | After linking, re-resolution is a plain googleId lookup |
| PassportConfig.RecreateIsLookup | src/config/passport.config.ts:113-126 | After creating, re-resolution is a plain googleId lookup |
| PassportAuthController.Register | src/controllers/passport-auth.controller.ts:21-47 | The same register specification as the other controller, the mail-failure branch included; the mailer gets the pair exactly when a record was created |
| PassportAuthController.VerifyEmail | src/controllers/passport-auth.controller.ts:191-219 | The same verification specification as the other controller |
| PassportAuthController.Login | src/controllers/passport-auth.controller.ts:52-88 | Outcome and store are those of the login specification over the local strategy: a sent response, an error handed to `next`, or an error thrown in the async callback and left unhandled |
| PassportAuthController.LoginFailures | src/controllers/passport-auth.controller.ts:54-65 | A failure writes nothing. An error goes to `next` exactly when the strategy reports one, and then unchanged. A rejection throws an AuthenticationError with the strategy's message, or 'Invalid credentials' when it has none, and that throw is unhandled. Missing credentials give 'Missing credentials' |
| PassportAuthController.LoginRejectionUnhandled | src/controllers/passport-auth.controller.ts:54-61 | A wrong address throws AuthenticationError 'Invalid credentials' inside the callback, writes nothing, and reaches no error handler, not even one of four parameters |
| PassportAuthController.ForwardingLoginForwards | src/controllers/passport-auth.controller.ts:54-65 | The callback that hands its errors to `next` sends and writes what the written one does, and forwards every error the written one throws; nothing is left unhandled |
| PassportAuthController.ForwardingLoginAnswers | src/controllers/passport-auth.controller.ts:59-61 | With that callback and a four-parameter error handler, a wrong address is answered 401 'Invalid credentials' |
| PassportAuthController.LoginSkipsVerificationAnd2FA | src/controllers/passport-auth.controller.ts:63-85 | A correct password issues a session and writes lastLoginAt even for an unverified or 2FA account; the hand-rolled login refuses the unverified one |
| PassportAuthController.GoogleCallback | src/controllers/passport-auth.controller.ts:101-122 | Outcome and store are those of the callback specification, which never calls `next` |
| PassportAuthController.GoogleCallbackAsWritten | src/controllers/passport-auth.controller.ts:104-119 | With the configuration as loaded, the callback always throws: the TypeError of reading config.frontend.url, or the save error. The throw is unhandled, so the client gets no answer |
| PassportAuthController.GoogleCallbackCrashesAfterWrite | src/controllers/passport-auth.controller.ts:108-119 | For a known Google user, lastLoginAt is written before the callback throws the unhandled TypeError |
| PassportAuthController.GoogleCallbackFailureRedirect | src/controllers/passport-auth.controller.ts:104-106 | Given a frontend URL, error or no user redirects to URL + '/auth/login?error=oauth_failed' and writes nothing |
| PassportAuthController.GoogleCallbackSuccessRedirect | src/controllers/passport-auth.controller.ts:108-119 | Given a frontend URL, success writes lastLoginAt and then redirects to URL + '/auth/oauth/success?accessToken=A&refreshToken=R'. Both tokens verify to the user until they expire |
| PassportAuthController.AfterAcceptance | src/controllers/passport-auth.controller.ts:108-119 | The success branch for any accepted user: the redirect, the lastLoginAt write and live tokens |
| PassportAuthController.Refresh | src/controllers/passport-auth.controller.ts:127-146 | A missing token gives ValidationError. A verify failure gives AuthenticationError 'Invalid or expired refresh token'. Success is 200 carrying a new access token |
| PassportAuthController.Logout | src/controllers/passport-auth.controller.ts:151-186 | Without a user: 'User not authenticated' and no write. Otherwise 200, and the blacklist is the logout specification with the token attached to the user |
| PassportAuthController.LogoutClosesTheGate | src/controllers/passport-auth.controller.ts:160-166 | After logout the session's access token is blacklisted, and the JWT gate refuses it from then on |
| TokenService.AccessTokenRoundTrip | src/services/token.service.ts:5-19 | An access token verifies with refresh=false before expiry, giving the payload's userId and e-mail, type 'access' and exp = issue second + expiresIn |
| TokenService.RefreshTokenRoundTrip | src/services/token.service.ts:11-19 | A refresh token verifies with refresh=true before expiry, giving the payload's userId and e-mail, type 'refresh' and exp = issue second + refreshExpiresIn |
| TokenService.TokensExpire | src/services/token.service.ts:5-19 | Once the lifetime has passed, verification fails with "jwt expired" |
| TokenService.CrossKindRejected | src/services/token.service.ts:17-19 | While the secrets differ, each kind fails verification as the other kind |
| TokenService.SharedSecretAcceptsRefreshAsAccess | src/services/token.service.ts:17-19 | With one shared secret, a refresh token verifies as an access token: the type claim is never checked |
| TokenService.VerifiedTokenWasIssued | src/services/token.service.ts:17-19 | A token that verifies was signed with the secret chosen by `refresh`, and has not expired |
| TokenService.ExpiryInMilliseconds | src/controllers/auth.controller.ts:228-230 | A token is live at second now/1000 iff now is before exp * 1000 ms, the blacklist expiry |
| TokenService.Hex | src/services/token.service.ts:22 | Hex encoding gives two lowercase hex digits per byte |
| TokenService.UnhexHex | src/services/token.service.ts:22 | Decoding the hex string gives back the bytes |
| TokenService.HexInjective | src/services/token.service.ts:22 | Distinct random bytes give distinct tokens |
| TokenService.GenerateEmailToken | src/services/token.service.ts:21-26 | The token is lowercase hex of twice the byte length, the hash is its SHA-256 hex, and it expires at now + 24 h |
| TokenService.EmailTokenShape | src/services/token.service.ts:21-26 | From 32 random bytes: a 64-character token that decodes back to them, its SHA-256 as hash, and expiry 86 400 000 ms after now |
| Crypto.VerifiedTokenIsGenuine | src/services/token.service.ts:17-19 | Under the library facts, a token that verifies is the signature of its claims with that secret, and the time is before exp |
| Env.ValidDoesNotSeparateSecrets | src/config/env.config.ts:13-16 | Loading admits one 32-character string as both JWT secrets |
| Env.LoadValidates | src/config/env.config.ts:4-75 | Loading succeeds iff NODE_ENV is unset or one of the three names and both secrets are set with at least 32 characters. The loaded configuration is then valid, holds the secrets as given, falls back to development, 7d and 30d, and has no frontend group |
| TokenBlacklistModel.MissingPaths | src/models/token-blacklist-model.ts:13-16 | An entry passes validation iff token and userId are non-empty |
| TokenBlacklistModel.CreatePreservesKeyed | src/models/token-blacklist-model.ts:13 | An insert keeps every entry stored under its own token |
| TokenBlacklistModel.SweepIsExact | src/services/token-blacklist.service.ts:43-47 | The sweep keeps exactly the entries with expiresAt >= now, unchanged, and keeps the keying |
| TokenBlacklistModel.SweepIdempotent | src/services/token-blacklist.service.ts:43-47 | Sweeping twice at one time equals sweeping once |
| TokenBlacklistModel.SweepMonotone | src/services/token-blacklist.service.ts:43-47 | A sweep followed by a later sweep equals the later sweep alone |
| TokenBlacklistModel.BlacklistCollection.Create | src/models/token-blacklist-model.ts:11-19 | The result is that of the create specification: required paths, then the unique token key. The entry is inserted only on success |
| TokenBlacklistModel.BlacklistCollection.FindOne | src/services/token-blacklist.service.ts:25 | Fails iff unreachable, otherwise finds the entry iff its token is stored |
| TokenBlacklistModel.BlacklistCollection.DeleteExpired | src/services/token-blacklist.service.ts:44-46 | Fails iff unreachable, otherwise the entries become the sweep of the old ones |
| TokenBlacklistModel.BlacklistCollection.Reap | src/models/token-blacklist-model.ts:22 | The TTL monitor removes some expired entries and never an unexpired one |
| TokenBlacklistService.BlacklistToken | src/services/token-blacklist.service.ts:7-19 | Passes iff the create succeeds. On failure it reports the create's error and leaves the store unchanged |
| TokenBlacklistService.IsTokenBlacklisted | src/services/token-blacklist.service.ts:24-27 | Fails iff unreachable, otherwise true iff an entry with that token exists (whatever its kind, owner or expiry) |
| TokenBlacklistService.BlacklistAllUserTokens | src/services/token-blacklist.service.ts:32-38 | Changes no state and returns the logged line |
| TokenBlacklistService.CleanupExpiredTokens | src/services/token-blacklist.service.ts:43-47 | Fails iff unreachable, otherwise it deletes exactly the entries with expiresAt < now |
| TokenBlacklistService.BlacklistedAfterInsert | src/services/token-blacklist.service.ts:7-27 | After a successful insert the token is blacklisted, and the entry holds the given fields |
| TokenBlacklistService.BlacklistNotIdempotent | src/services/token-blacklist.service.ts:13-18 | Blacklisting a token already present fails with a duplicate key, answered 409 |
| TokenBlacklistService.InsertLeavesOthers | src/services/token-blacklist.service.ts:7-19 | An insert leaves the status of every other token unchanged |
| TokenBlacklistService.SweepLeavesUnexpired | src/services/token-blacklist.service.ts:43-47 | A sweep blacklists nothing new and keeps every unexpired entry |
| TokenBlacklistService.RemovedEntriesAreDeadTokens | src/services/token-blacklist.service.ts:43-47 | A swept entry's JWT has itself expired, so removing it reopens nothing |
| UserModel.ProjectionHidesSecrets | src/models/user-model.ts:38-51 | A default read has no password, verification token/expiry or 2FA secret, and differs from the record in nothing else. Selecting '+password +twoFactorSecret' restores those two only |
| UserModel.NormalizeEmailIdempotent | src/models/user-model.ts:37 | Lowercasing and trimming twice equals doing it once |
| UserModel.LowerIdempotent | src/models/user-model.ts:37 | Lowercasing twice equals lowercasing once |
| UserModel.FirstIsSmallestMatch | src/models/user-model.ts:65 | findOne finds nothing iff no record matches, else the matching record with the smallest (earliest) id |
| UserModel.FirstByEmail | src/models/user-model.ts:37 | Looking up an address finds the record whose stored e-mail is that address normalised |
| UserModel.EmailFilterMatchesOne | src/models/user-model.ts:37 | In a consistent store at most one record matches an e-mail filter |
| UserModel.FindOne | src/models/user-model.ts:38-51 | Fails iff unreachable; else the first matching record, projected to the selection, or nothing |
| UserModel.FindById | src/models/user-model.ts:33-65 | Fails iff unreachable; else the record with that id, in its default read, iff it exists |
| UserModel.MissingPaths | src/models/user-model.ts:35-37 | firstName, lastName or email is reported missing iff absent or empty after its setters |
| UserModel.CreateDefaults | src/models/user-model.ts:35-53 | A create takes the next, fresh id and stores the normalised e-mail, names, password and googleId as given. emailVerified is false unless set. There is no 2FA, no secret and no lastLoginAt |
| UserModel.CreateRefusals | src/models/user-model.ts:35-37 | A blank required path fails with a Mongoose ValidationError listing the paths; a taken e-mail fails with duplicate key 11000 |
| UserModel.SparseGoogleId | src/models/user-model.ts:39-40 | Any number of records may lack a googleId: such a create fails only for its e-mail |
| UserModel.CreatePreservesInvariant | src/models/user-model.ts:35-40 | Create keeps the invariant: well-formed records under their ids, e-mail unique, googleId and appleId unique when present |
| UserModel.CreateKeepsEmailsNormalized | src/models/user-model.ts:37 | Create keeps every stored e-mail lowercased and trimmed |
| UserModel.CreatedRecord | src/models/user-model.ts:33-63 | A successful create had a valid draft, a reachable store and a free e-mail, and it inserts the draft's record |
| UserModel.SaveKeepsEmailsNormalized | src/models/user-model.ts:37 | save() keeps every stored e-mail normalised |
| UserModel.EmailLookupNormalizes | src/models/user-model.ts:37 | A record is found by any spelling of its address that normalises to the same value |
| UserModel.NoAddressMatchesNothing | src/config/passport.config.ts:103 | A lookup by an undefined address finds no record |
| UserModel.SaveWritesOnlyDirtyPaths | src/models/user-model.ts:33-65 | save() changes only the saved record, and in it only the modified paths; with no modified path it changes nothing |
| UserModel.SaveLastLogin | src/models/user-model.ts:33-65 | Saving a fetched record with only lastLoginAt modified writes just that field, keeping the hidden fields as stored |
| UserModel.SavePreservesInvariant | src/models/user-model.ts:35-40 | save() keeps the store invariant |
| UserModel.CreateKeepsTwoFactorConsistent | src/models/user-model.ts:50-51 | A created record has no 2FA secret and 2FA disabled |
| UserModel.UserCollection.Create | src/models/user-model.ts:65 | The result is that of the create specification; the record is inserted only on success |
| UserModel.UserCollection.Save | src/models/user-model.ts:65 | Passes iff the save specification succeeds. The new state is its result, or the old one on failure |
| Errors.SubclassesFollowTable | src/utils/errors.ts:26-89 | Each subclass has its table status and code and is operational |
| Errors.AppErrorDefaults | src/utils/errors.ts:9-20 | AppError defaults to status 500, code 'AppError' and operational, and keeps its details |
| Errors.AppErrorCode | src/utils/errors.ts:18 | The code is the given one unless it is empty, in which case it is the class name |
| Errors.CustomMessageReplacesDefault | src/utils/errors.ts:32-36 | A custom message replaces the class's default message and changes nothing else. The defaults are 'Authentication failed', 'Access denied', 'Resource not found', 'Too many requests' and 'Invalid or expired token' |
| Errors.ExternalServiceMessage | src/utils/errors.ts:68-77 | The message is '<service> service error: <message>' and the status 503 |
| ErrorHandler.FieldIssues | src/middleware/errorHandler.ts:25-30 | One {field: path, message} per Mongoose path error, in order |
| ErrorHandler.Handle | src/middleware/errorHandler.ts:7-110 | Status, message and code are the classification's. Details are shown iff (development or 400) and truthy. The stack is shown iff development and non-empty |
| ErrorHandler.Respond | src/middleware/errorHandler.ts:7-110 | The if/else chain with its switch, plus the in-place additions to the response, give the specified response |
| ErrorHandler.MountedHandlerSkipped | src/middleware/errorHandler.ts:7 | As declared, with three parameters, the mapping never answers an error. Express's final handler does, with an AppError's own 4xx/5xx status and 500 for any other error |
| ErrorHandler.FourParameterHandlerAnswers | src/app.ts:98 | A handler declared with four parameters answers every error as Handle maps it |
| ErrorHandler.AppErrorTakesPrecedence | src/middleware/errorHandler.ts:14-19 | An AppError is answered with its own status, message and code, and with its details unless hidden outside development |
| ErrorHandler.UnknownErrorsAreOpaque | src/middleware/errorHandler.ts:8-11 | Any other error outside development is 500 'Internal server error' INTERNAL_SERVER_ERROR, with no details and no stack |
| ErrorHandler.RawStatuses | src/middleware/errorHandler.ts:20-77 | A non-AppError is answered 400, 401, 409 or 500 |
| ErrorHandler.StackOnlyInDevelopment | src/middleware/errorHandler.ts:104-106 | Outside development no stack is sent |
| ErrorHandler.ValidationIssuesAlwaysShown | src/middleware/errorHandler.ts:100-103 | A ValidationError's issue list is always sent, with 400 VALIDATION_ERROR and its message |
| ErrorHandler.MongooseValidationIssues | src/middleware/errorHandler.ts:21-31 | A Mongoose ValidationError is 400 'Validation error' VALIDATION_ERROR, with one field/message issue per path error |
| ErrorHandler.DuplicateKeyResponse | src/middleware/errorHandler.ts:33-39 | Duplicate key 11000 is 409 DUPLICATE_ERROR 'Duplicate field value'. The details {field: first key, message: '<field> already exists'} are sent only in development |
| ErrorHandler.OtherServerErrors | src/middleware/errorHandler.ts:33 | A MongoServerError with another code is a 500 |
| ErrorHandler.JwtFailureResponse | src/middleware/errorHandler.ts:51-59 | JWT failures are 401 with no details: TOKEN_EXPIRED iff expired, INVALID_TOKEN iff malformed or badly signed |
| ErrorHandler.MulterResponse | src/middleware/errorHandler.ts:61-77 | A MulterError is 400 FILE_UPLOAD_ERROR, with 'File upload error' exactly for codes outside the three named limits |
| ErrorHandler.NotFound | src/middleware/errorHandler.ts:113-128 | 404 ROUTE_NOT_FOUND with message 'Route <METHOD> <url> not found', no details and no stack |
| Mongo.RequiredPaths | src/models/user-model.ts:35-37 | A required-path failure is a Mongoose ValidationError with one path error per missing path, in order |
| Mongo.RequiredErrors | src/models/user-model.ts:35-37 | Each missing path gets "Path `p` is required." |
| Mongo.DatabaseErrorResponses | src/middleware/errorHandler.ts:20-39 | Database failures are 500, a duplicate key is 409 DUPLICATE_ERROR, and required-path failures are 400 with one issue per path |
| Http.Lookup | src/controllers/auth.controller.ts:19 | A key is found iff some field has that name, and its value is the one at the name's first occurrence |
| Http.LookupUnique | src/controllers/auth.controller.ts:19 | On a part that names each key once, as a parsed JSON object does, every key's lookup is its own value |
| Joi.FirstLine | src/config/constants.ts:77 | The part of a string the password lookaheads scan: up to the first line terminator |
| Joi.StrongPasswordExtends | src/config/constants.ts:77 | The password pattern has no end anchor: any suffix keeps it satisfied |
| Joi.SecondLineNotScanned | src/config/constants.ts:77 | A special character on the second line does not count: 'Abcdefg1\n@' fails the pattern |
| Joi.RuleErrors | src/middleware/validation.ts:15 | With abortEarly off: at most one detail per rule, none iff every rule holds, each under the key's path |
| Joi.StringErrors | src/middleware/validation.ts:15 | Every detail of a field is reported under that field's path |
| Joi.StringErrorsIff | src/middleware/validation.ts:15 | A field has no detail iff its schema accepts its value |
| Joi.KeyErrors | src/middleware/validation.ts:15 | Every key detail is under a declared key |
| Joi.UnknownErrors | src/middleware/validation.ts:15 | At most one detail per field, none iff every field is declared |
| Joi.KeyErrorsEmptyIff | src/middleware/validation.ts:15 | No key detail iff every declared key accepts its value |
| Joi.ObjectErrorsIff | src/middleware/validation.ts:15 | No detail iff the object schema accepts the part |
| Joi.ObjectErrorsByParts | src/middleware/validation.ts:15 | No detail iff every declared key accepts its value, no undeclared key is present and the key count reaches the minimum |
| Joi.UnknownKeyReported | src/middleware/validation.ts:15 | Every undeclared key is reported as '"key" is not allowed' |
| Validation.LocateAll | src/middleware/validation.ts:18-22 | One issue per detail, in order: field = path joined with '.', the detail's message, and the location |
| Validation.PartIssues | src/middleware/validation.ts:14-25 | A part without a schema contributes nothing, and every issue a part contributes carries its location |
| Validation.PushLocated | src/middleware/validation.ts:17-23 | The push loop appends exactly the located details to the array |
| Validation.ValidateRequest | src/middleware/validation.ts:5-61 | The three push blocks and the final test give the verdict on body, then query, then params issues |
| Validation.ContinuesIff | src/middleware/validation.ts:55-59 | next() is called iff every part with a schema is accepted by it |
| Validation.BodyErrorsStop | src/middleware/validation.ts:14-57 | Any body detail stops the request |
| Validation.FailureCarriesIssues | src/middleware/validation.ts:55-57 | A failure is 400 VALIDATION_ERROR 'Validation failed', carrying all the issues unchanged |
| Validation.CollectedInOrder | src/middleware/validation.ts:14-53 | Body issues come before query issues, which come before params issues |
| Validation.BodyKeyIssue | src/middleware/validation.ts:18-22 | A detail on body key k is reported as field k, located in the body |
| CommonSchemas.EmailAccepts | src/validators/common.schemas.ts:4-7 | The e-mail schema accepts exactly a present string of the form local@domain.tld. The three parts are non-empty and have no white space or '@', and the domain part may itself contain dots |
| Joi.EmailPartsNonEmpty | src/config/constants.ts:76 | "a@b.c" is an address; "a@.b", "@b.c" and "a@b." are not |
| CommonSchemas.EmailMessages | src/validators/common.schemas.ts:4-7 | Absent gives 'Email is required'; malformed gives 'Please provide a valid email address' |
| CommonSchemas.PasswordAccepts | src/validators/common.schemas.ts:9-18 | The password schema accepts exactly a present string of length at least 8 that satisfies the password pattern |
| CommonSchemas.PasswordMessages | src/validators/common.schemas.ts:9-18 | A short, weak password gets both messages, the length one first |
| CommonSchemas.StrongPasswordExtends | src/validators/common.schemas.ts:9-18 | A suffix never makes a strong password weak |
| CommonSchemas.NameAccepts | src/validators/common.schemas.ts:20-27 | The name schema accepts an absent value, or a string that trims to 2..50 letters and spaces |
| AuthValidators.NameAccepts | src/validators/auth.validators.ts:21-30 | A name, required or optional, is a string that trims to 1..100 characters |
| AuthValidators.UsernameAccepts | src/validators/auth.validators.ts:32-42 | A username is absent, or a string that trims to 3..30 of [A-Za-z0-9_] |
| AuthValidators.RequiredTextAccepts | src/validators/auth.validators.ts:59-61 | A required plain string is accepted iff present and non-empty |
| AuthValidators.RegisterValuesAccepted | src/validators/auth.validators.ts:45-53 | The register keys accept their values iff e-mail, strong password and both names are valid and present, and the username is absent or valid |
| AuthValidators.RegisterAccepts | src/validators/auth.validators.ts:45-53 | Register passes iff its values are valid and no other key is sent |
| AuthValidators.LoginAccepts | src/validators/auth.validators.ts:56-63 | Login passes iff the e-mail is valid, the password is a non-empty string and no other key is sent |
| AuthValidators.LoginRejectsTwoFactorCode | src/validators/auth.validators.ts:56-63 | A body with twoFactorCode gets '"twoFactorCode" is not allowed' and the request is stopped |
| AuthValidators.TwoFactorLoginAsWritten | src/validators/auth.validators.ts:56-63 | Every body the login schema lets through lacks twoFactorCode, so a 2FA account's correct password ends in '2FA code required' |
| AuthValidators.LoginWithCodeAccepts | src/validators/auth.validators.ts:56-63 | With twoFactorCode declared, a body passes iff the e-mail is valid, the password non-empty, the code absent or a non-empty string, and no other key is present |
| AuthValidators.TwoFactorLoginCorrected | src/validators/auth.validators.ts:56-63 | With that schema, any body with those keys that carries the code and a correct password for a verified 2FA account whose code verifies passes validation and every login check |
| AuthValidators.RefreshTokenAccepts | src/validators/auth.validators.ts:66-72 | Refresh passes iff refreshToken is a non-empty string and is the only key |
| AuthValidators.ForgotPasswordAccepts | src/validators/auth.validators.ts:75-79 | Forgot-password passes iff the one key is a valid e-mail |
| AuthValidators.ResetPasswordAccepts | src/validators/auth.validators.ts:82-89 | Reset passes iff token is a non-empty string, password is strong and no other key is sent |
| AuthValidators.ChangePasswordAccepts | src/validators/auth.validators.ts:92-99 | Change passes iff currentPassword is a non-empty string, newPassword is strong and no other key is sent |
| AuthValidators.BioAccepts | src/validators/auth.validators.ts:107-113 | A bio is absent, '' or at most 500 characters |
| AuthValidators.UpdateProfileValuesAccepted | src/validators/auth.validators.ts:102-114 | The update keys accept their values iff each present name, username and bio is valid |
| AuthValidators.UpdateProfileAccepts | src/validators/auth.validators.ts:102-119 | Update passes iff its values are valid, only its keys are sent and at least one is |
| AuthValidators.EmptyUpdateRefused | src/validators/auth.validators.ts:115-118 | An empty body gets exactly 'At least one field is required for update' |
| UserValidators.BusinessNameAccepts | src/validators/user.validators.ts:49 | businessName is absent, null, '' or a string that trims to 2..100 characters |
| UserValidators.ImageAccepts | src/validators/user.validators.ts:51-53 | profilePicture and coverImage are absent, null, '' or a URI |
| UserValidators.PersonalValuesAccepted | src/validators/user.validators.ts:7-47 | The personal keys accept iff each present name is 2..50 letters and spaces once trimmed, and the username and bio are valid |
| UserValidators.BusinessValuesAccepted | src/validators/user.validators.ts:49-53 | The business keys accept iff each present value is valid |
| UserValidators.UpdateProfileAccepts | src/validators/user.validators.ts:5-59 | Update passes iff all values are valid, only its seven keys are sent and at least one is |
| UserValidators.StricterThanAuthSchema | src/validators/user.validators.ts:5-59 | A body this schema accepts, using only the auth schema's keys, is accepted by the auth update schema too |
| UserValidators.PersonalImpliesAuth | src/validators/user.validators.ts:7-47 | Valid personal values are valid for the auth update schema |
| UserValidators.OneCharacterName | src/validators/user.validators.ts:7-17 | A one-character name passes the auth schema's name rule and fails this one |
| Strings.Trim | src/validators/auth.validators.ts:22 | Trimming never lengthens, and leaves no white space at either end |
| Strings.TrimIdempotent | src/validators/auth.validators.ts:22 | Trimming twice equals trimming once |
| Strings.TrimLower | src/models/user-model.ts:37 | The lowercase and trim setters commute |
| Strings.Split | src/config/passport.config.ts:118-119 | split(' ') always yields at least one part, so the first word of a display name always exists |
| Strings.JoinSplit | src/config/passport.config.ts:118-119 | Joining the parts of split(' ') with ' ' gives the display name back |
| Strings.SplitJoin | src/config/passport.config.ts:118-119 | Splitting words joined by ' ' gives the words back |

## Left out

- E-mail sending (`sendVerificationEmail`) is an effect outside the model. Register returns the (address, token) pair it would mail, and the transport's outcome is an input: `smtpError` is its failure message, or none when the mail is sent.
- bcrypt, JWT signing and verification (RFC 7519), SHA-256, TOTP (RFC 6238) and QR code generation are opaque functions with the facts stated in `Crypto.Sound`. Random bytes, salts and the generated 2FA secret are inputs.
- Expiry durations are whole seconds; the '7d' / '30d' strings are not parsed.
- Joi `.email()` is approximated by the `^[^\s@]+@[^\s@]+\.[^\s@]+$` form of the constants file, not Joi's full address grammar. `.uri()` is approximated by a scheme, ':' and a rest without white space.
- String lengths count Dafny characters, not UTF-16 code units.
- `toLowerCase` is modelled for the ASCII letters only; other characters are left as they are.
- Request parts are flat lists of fields with string, null or other values. Nested objects, arrays and non-object bodies are not modelled, and values Joi would convert are not written back (the middleware discards them anyway).
- `findOne({email: undefined})` is modelled as matching nothing. The driver serialises an undefined filter value as null (its `ignoreUndefined` option is off by default). Every stored record has the required e-mail, so null matches none. This matters to the Google resolver, where no validator runs on the profile: a profile without e-mails reaches the create, which fails on the required email (`PassportConfig.GoogleWithoutEmailFails`). Had Mongoose dropped the condition, the lookup would instead link the first stored record.
- The Google OAuth exchange, its network calls, the `googleAuth` redirect, and `serializeUser` / `deserializeUser` are library or network plumbing and not modelled.
- `asyncHandler` is modelled as handing a handler's error to the error-handling chain. The async callbacks that login and the Google callback give `passport.authenticate` are a different case. Passport ignores the promise they return, so a throw inside them is an unhandled rejection that reaches neither `asyncHandler`'s catch nor any error handler. `PassportAuthController.Settled` keeps the three endings apart: a sent response, an error handed to `next`, and an unhandled rejection.
- What follows an unhandled rejection is not modelled. The request stays unanswered. Node 15 and later also exit the process, since no `unhandledRejection` handler is registered.
- The logging calls (`logError`, `logger.warn`, `console.error`) are not modelled, except the line `blacklistAllUserTokens` logs.
- The bookmark, following and follower arrays, `mfaRecoveryCodes`, `coverImage`'s random default and the timestamps of the user schema are not modelled. Nothing in the core reads them.
- The `trim` setter of the `businessName` path is not modelled, because no modelled operation writes that path. Login only reads it into the public profile.
- `findOne` without a sort returns documents in MongoDB's natural order, which is unspecified. The model reads it as the smallest matching id (`UserModel.FirstIsSmallestMatch`). This matters only for filters that are not unique, such as a verification hash shared by two records.
- `appleId` uniqueness is kept as an invariant, but no operation sets it.
- Database failures are a single `available` flag per collection, fixed for the collection's lifetime. A save that fails half-way and concurrent requests are not modelled.
- The TTL monitor's timing is not modelled: `Reap` removes any subset of the expired entries.
- Routes and wiring are not modelled, beyond the fact that the login route puts the login schema before the hand-rolled login handler.
- Environment loading covers NODE_ENV and the four JWT variables. The database, OAuth, AWS, SMTP, rate-limit, CORS and upload variables are not modelled; they are required or defaulted in the same way, and the core does not read them.
- A request part may repeat a key, which a parsed JSON object cannot. `Lookup` then takes the first occurrence. `Http.LookupUnique` shows that on parts naming each key once the lookup is each key's own value.
- Express's final handler answers with an HTML page whose content depends on the environment. Only its status is modelled (`ErrorHandler.Deliver`).

## Findings

| source | as written | input that shows it | evidently intended | confidence | as-written member | corrected member |
|---|---|---|---|---|---|---|
| src/controllers/passport-auth.controller.ts:105-119 | The callback reads `config.frontend.url`, but the exported configuration (src/config/env.config.ts:61-121) has no `frontend` group. `config` is an untyped object literal, so a type-checked `tsc` build already rejects `config.frontend` (TS2339). In a run that strips types without checking them, both redirects throw a TypeError, and on success lastLoginAt has already been saved. The callback is async and passport drops its promise, so the TypeError is an unhandled rejection and the client gets no answer | any Google profile, for example one whose googleId is already stored | a configured front-end base URL that both redirects are built on | not executed | PassportAuthController.GoogleCallbackAsWritten | PassportAuthController.GoogleCallbackSuccessRedirect |
| src/validators/auth.validators.ts:56-63 | loginSchema declares only email and password, so Joi refuses a `twoFactorCode` key. The hand-rolled login route (src/routes/auth.routes.ts:18) runs it before a handler that requires that key for 2FA accounts (src/controllers/auth.controller.ts:105-108), so a 2FA account can never log in there. The router (src/routes/index.ts:3-9) mounts only the passport routes, so this route is unreachable and the defect is latent | body {email, password, twoFactorCode: "123456"} for an account with twoFactorEnabled | loginSchema also declares an optional twoFactorCode string | not executed | AuthValidators.TwoFactorLoginAsWritten | AuthValidators.TwoFactorLoginCorrected |
| src/middleware/errorHandler.ts:7 | `errorHandler` declares three parameters, `(error, req, res)`, and is mounted with `app.use` (src/app.ts:98). Express passes an error only to middleware declaring four parameters, so no error reaches it. Every error ends in Express's final handler instead, without the JSON body, codes or validation issues | any request whose handler throws, for example a register with a taken address | the handler declared as `(error, req, res, next)`, so that it answers every error | not executed | ErrorHandler.MountedHandlerSkipped | ErrorHandler.FourParameterHandlerAnswers |
| src/controllers/passport-auth.controller.ts:54-65 | The login callback given to `passport.authenticate` is async, and passport ignores the promise it returns. Only a strategy error (`return next(err)`) reaches Express. The AuthenticationError thrown for a rejection, and a failing `user.save()`, become unhandled rejections: the request gets no answer | POST /auth/login with an address no account has | the callback returns `next(new AuthenticationError(…))`, and catches the save's failure and hands it to `next` | not executed | PassportAuthController.LoginRejectionUnhandled | PassportAuthController.ForwardingLoginAnswers |
