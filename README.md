# Inzora music backend — a Dafny model of its core

This project models the core of the Inzora music-app backend, a Go HTTP service. It covers:

- **Accounts and sessions.** Argon2id password hashes in the PHC string form, signed access and refresh tokens, the `refresh_tokens` table, and the auth service that issues, rotates and revokes token pairs. It also covers the checks made on a Google ID token once Google's library has validated it, and the user service (register, Google provisioning, login, profile updates with merged preferences).
- **HTTP edges.** The five auth endpoints and how their errors map to status codes, the middleware chain (request ids, log level, bearer admission, role checks, security headers, the JSON content-type gate), and the playlist answer built by `mapPlaylistToResponse`.
- **The user's own data.** Playlists with owned, positioned tracks, and the library: favourites, listening history and downloads. Both are modelled as a repository over tables plus a service that checks identifiers and ownership.
- **The music catalogue.** The provider registry and the music service in front of it, the Spotify provider (client-credentials token cache, answer conversion) and the iTunes provider. Also the page arithmetic they share.
- **Configuration.** Defaults, validation and the Postgres connection string.

Stateful objects are classes whose methods update fields in place. Examples are the repositories, the services, a `RefreshToken` object, a request `Context` and the Spotify provider with its token cache. Each method is proved against a pure function of the old state. What the source promises is then proved about those functions as lemmas.

The environment enters as parameters:

- the current time;
- fresh UUIDs;
- the random salt;
- the key-derivation function;
- the token codec;
- each HTTP exchange with a provider, as a `Response` value;
- whether a database call fails, as one flag per call.

Every branch the source takes on these values is therefore modelled.

Two behaviours are worth knowing before reading the proofs:

- The music service merges the pages of several providers. The combined `HasNext` is true only when the merged count equals the requested size. So once two providers each return a full page, the merged page says there is nothing more (`Registry.FullPagesHideNext`). This is the code as written, and the model keeps it.
- Login does not consult `IsActive` (`Users.InactiveAccountsLogIn`). The description of the system says inactive accounts are refused; the model follows the code.

## Model

| member | source | states |
|---|---|---|
| PasswordHash.NewPasswordHasher | music_app_backend/internal/auth/password.go:28-35 | The hasher keeps the three cost parameters it is given and always derives 32-byte keys. |
| PasswordHash.PasswordHasher.Hash | music_app_backend/internal/auth/password.go:38-53 | Hashing succeeds exactly when a salt could be drawn and time, threads and key length are at least 1; with a salt, a zero among them is the key derivation's panic. A failed random source is its own error. A success splits on `$` into exactly the six PHC fields: empty, `argon2id`, `v=19`, the cost parameters, the base64 salt and the base64 key derived from password and salt. |
| PasswordHash.PasswordHasher.Matches | music_app_backend/internal/auth/password.go:56-95 | A comparison reaches an answer only for a stored string with six `$`-fields, version 19, a readable parameter field and two decodable base64 fields, whose time and threads are at least 1 and whose stored key is not empty. |
| PasswordHash.MatchesFields | music_app_backend/internal/auth/password.go:71-94 | On such a string with non-zero costs and a non-empty key, the answer is whether the key derived with the stored parameters, stored salt and the stored key's length equals the stored key. |
| PasswordHash.DegenerateStoredHashPanics | music_app_backend/internal/auth/password.go:88 | On a readable stored string whose time or threads is zero or whose key is empty, the key derivation panics, whatever the password. |
| PasswordHash.HashThenMatches | music_app_backend/internal/auth/password.go:38-95 | Round trip: a hash from any hasher is accepted by any hasher for the same password. For another password it is accepted exactly when the derived keys agree. |
| PasswordHash.OtherVersionRefused | music_app_backend/internal/auth/password.go:62-69 | A stored hash naming any other argon2 version is refused as incompatible before any key is derived. |
| PasswordHash.WrongFieldCountRefused | music_app_backend/internal/auth/password.go:57-60 | Anything but six `$`-separated fields is an invalid hash, whatever the password. |
| PasswordHash.ScanParamsField | music_app_backend/internal/auth/password.go:71-76 | The parameter field `Hash` writes reads back through `m=%d,t=%d,p=%d` as the same memory, time and threads. |
| PasswordHash.ScanVersionField | music_app_backend/internal/auth/password.go:62-66 | `v=%d` reads back every version that fits a 64-bit int. |
| PasswordHash.FieldsHaveNoDollar | music_app_backend/internal/auth/password.go:46-50 | No field `Hash` writes contains the `$` separator, so splitting the result recovers the fields. |
| PasswordHash.ScanUnsignedOfNat | music_app_backend/internal/auth/password.go:71-76 | `%d` into an unsigned variable reads back a number written in decimal, stopping at the first non-digit. |
| PasswordHash.SkipSpace | music_app_backend/internal/auth/password.go:71-76 | The scanner skips leading blanks and never consumes input that starts with a non-blank. |
| Base64.Encode | music_app_backend/internal/auth/password.go:46-47 | The unpadded encoding of n bytes has 4·⌊n/3⌋ characters plus 0, 2 or 3 for the remainder, all from the RFC 4648 section 4 alphabet. |
| Base64.DecodeEncode | music_app_backend/internal/auth/password.go:78-86 | Decoding an encoding gives the original bytes back. |
| Base64.EncodeHasNoDollar | music_app_backend/internal/auth/password.go:49-50 | An encoded salt or key never contains the field separator `$`. |
| Base64.SextetRoundTrip | music_app_backend/internal/auth/password.go:46-47 | Each 6-bit value maps to an alphabet character that maps back to it. |
| Jwt.AlgByName | music_app_backend/internal/auth/jwt.go:49-61 | A recognised method name denotes the method of that name. |
| Jwt.AlgNameRoundTrip | music_app_backend/internal/auth/jwt.go:49-61 | Every one of the six methods is recognised by its own name. |
| Jwt.SigningMethodFor | music_app_backend/internal/auth/jwt.go:48-64 | The six names HS256 to RS512 select their method; any other name falls back to HS256. |
| Jwt.NewJwtService | music_app_backend/internal/auth/jwt.go:47-73 | The service keeps both secrets as bytes and both lifetimes, with the method chosen by name. |
| Jwt.StringBytes | music_app_backend/internal/auth/jwt.go:66-67 | The byte form of a secret has one byte per character. |
| Jwt.JwtService.IssuedClaims | music_app_backend/internal/auth/jwt.go:80-100 | Issued claims carry the user's id, email and roles, the token kind and its own id. The subject is the id's text and the issuer is `music-app-backend`. They are issued and valid from now, and expire after the kind's lifetime. |
| Jwt.JwtService.Sign | music_app_backend/internal/auth/jwt.go:97-101 | Signing with the byte secret succeeds exactly for the HMAC methods. |
| Jwt.JwtService.GenerateTokenPair | music_app_backend/internal/auth/jwt.go:76-131 | A pair is issued exactly when the method is HMAC. The access token signs access claims with the access secret and lifetime. The refresh token signs refresh claims with the refresh secret and lifetime. The pair is a `Bearer` pair whose `expiresIn` is the access lifetime. |
| Jwt.JwtService.Verify | music_app_backend/internal/auth/jwt.go:134-160 | A token is accepted exactly when all of these hold: it parses; its header names the configured method; that method is HMAC; the signature verifies with the secret; now lies in [nbf, exp); and its `type` is the expected kind. The claims returned are the token's own. |
| Jwt.JwtService.VerifyAccessToken | music_app_backend/internal/auth/jwt.go:134-160 | Accepted claims are access claims valid now. |
| Jwt.JwtService.VerifyRefreshToken | music_app_backend/internal/auth/jwt.go:163-189 | Accepted claims are refresh claims valid now. |
| Jwt.IssuedTokensVerify | music_app_backend/internal/auth/jwt.go:76-189 | Every issued token is accepted by the matching verifier throughout its lifetime, with exactly the claims it was issued with. |
| Jwt.TokenKindsDisjoint | music_app_backend/internal/auth/jwt.go:155-157 | No token is ever accepted both as an access token and as a refresh token. |
| Jwt.RsaMethodRejectsEverything | music_app_backend/internal/auth/jwt.go:56-61 | With an RSA method configured nothing can be issued and every token is refused. |
| Jwt.OutsideLifetimeRejected | music_app_backend/internal/auth/jwt.go:135-144 | A token is refused from its expiry on and before its not-before time. |
| Jwt.ExtractTokenFromHeader | music_app_backend/internal/auth/jwt.go:192-206 | The extracted token holds no space, and it is empty, the header itself or a piece of the header. |
| Jwt.BearerHeaderYieldsToken | music_app_backend/internal/auth/jwt.go:194-197 | `Bearer <token>`, with the scheme in any letter case, yields the token. |
| Jwt.BareTokenYieldsItself | music_app_backend/internal/auth/jwt.go:201-203 | A bare token without spaces and with exactly two dots is taken as it is. |
| Jwt.BlankHeaderYieldsNothing | music_app_backend/internal/auth/jwt.go:192-206 | An empty or all-blank header yields no token. |
| Jwt.FieldOccurs | music_app_backend/internal/auth/jwt.go:194-196 | Every white-space field of the header is a contiguous piece of it. |
| Jwt.IssuedTokenExtracts | music_app_backend/internal/auth/jwt.go:192-206 | An issued access token is found both in a `Bearer` header and when sent bare. |
| Google.StringClaim | music_app_backend/internal/auth/google.go:49-57 | A string claim is read only when present with a string value; otherwise it is empty. |
| Google.BoolClaim | music_app_backend/internal/auth/google.go:52-61 | A boolean claim is true exactly when present and `true`. |
| Google.VerifyIdToken | music_app_backend/internal/auth/google.go:34-73 | A token the library rejects, or one from an issuer other than the two Google issuers, is refused. A token is accepted exactly when the issuer is trusted and `email_verified` is true. The user's id is the subject and the email is marked verified. Each profile field (email, name, given and family name, picture, locale) is its string claim, or empty when that claim is not a string. |
| Google.MissingClaimsBecomeEmpty | music_app_backend/internal/auth/google.go:49-72 | For any claims of a trusted, verified token, profile claims never cause a rejection. Each of the six profile fields is the claim's string when that claim is present as a string, and empty otherwise. |
| Google.UnverifiedEmailRejected | music_app_backend/internal/auth/google.go:52-61 | An absent, false or non-boolean `email_verified` rejects the token. |
| RefreshTokens.ValidityAndExpiry | music_app_backend/internal/auth/model.go:42-49 | A valid token is never expired. At the exact expiry instant a token is neither valid nor expired. An unrevoked token is valid, expired, or at that instant. |
| RefreshTokens.AfterHook | music_app_backend/internal/auth/model.go:26-34 | The hook fills in a nil id and a zero issue time and changes nothing else. |
| RefreshTokens.RefreshToken.constructor | music_app_backend/internal/auth/service.go:58-65 | The object the service builds: unrevoked, no successor, nil id and zero timestamps. |
| RefreshTokens.RefreshToken.BeforeCreate | music_app_backend/internal/auth/model.go:26-34 | The object becomes the hook's effect on its old state. |
| RefreshTokens.RefreshToken.Revoke | music_app_backend/internal/auth/model.go:52-55 | Only the revoked flag and the update time change, and the token is no longer valid. |
| RefreshTokens.RefreshToken.RevokeAndReplace | music_app_backend/internal/auth/model.go:58-62 | Revokes and records the successor's id, and the token is no longer valid. |
| TokenStore.Stamped | music_app_backend/internal/auth/repository.go:22-24 | gorm fills zero creation and update times with now and keeps the token's identity, owner, expiry and revocation. |
| TokenStore.RefreshTokenRepository.Create | music_app_backend/internal/auth/repository.go:22-24 | Insertion succeeds exactly when the database works and neither the token id nor the primary key is taken; the stored row is the stamped object. A failure is a database error when the database fails and a duplicate key otherwise, and it leaves the table as it was. |
| TokenStore.RefreshTokenRepository.GetByTokenId | music_app_backend/internal/auth/repository.go:27-34 | A lookup gives a fresh copy of the row, not-found, or a database error. |
| TokenStore.RefreshTokenRepository.RevokeByTokenId | music_app_backend/internal/auth/repository.go:37-42 | A database failure is reported and leaves the table as it was. Otherwise there is no error, even when no row matches, and the table becomes `RevokeTokenId` of the old table. |
| TokenStore.RevokeTokenIdEffect | music_app_backend/internal/auth/repository.go:37-42 | After revoking a token id, no row with that id is valid at any time, no revocation is undone, and every other row is unchanged. |
| TokenStore.RefreshTokenRepository.RevokeAllUserTokens | music_app_backend/internal/auth/repository.go:45-50 | A database failure is reported and leaves the table as it was. Otherwise the table becomes `RevokeUser` of the old table. |
| TokenStore.RevokeUserEffect | music_app_backend/internal/auth/repository.go:45-50 | After revoking a user's tokens none of them is valid, and other users' rows are untouched. |
| TokenStore.RefreshTokenRepository.CleanExpiredTokens | music_app_backend/internal/auth/repository.go:53-57 | A database failure is reported and leaves the table as it was. Otherwise the table becomes `Cleaned` of the old table. |
| TokenStore.CleanedEffect | music_app_backend/internal/auth/repository.go:53-57 | Cleaning keeps exactly the unexpired rows, unchanged, so every valid token survives. |
| TokenStore.OperationsKeepKeys | music_app_backend/internal/auth/repository.go:37-57 | Revocation, cleaning and recording a successor keep both unique keys intact. |
| TokenStore.RefreshTokenRepository.SaveReplacement | music_app_backend/internal/auth/service.go:108-110 | Corrected rotation only: the consumed token's revocation and successor are written back. |
| AuthService.Draft | music_app_backend/internal/auth/service.go:58-65 | The stored row takes the verified refresh token's id, owner, issue and expiry times, unrevoked and without successor. |
| AuthService.Issue | music_app_backend/internal/auth/service.go:44-72 | Signing fails exactly when the token service fails. Issuing succeeds exactly when the pair is signed, its refresh token reads back with both timestamps, the database works and the row is insertable under both unique keys. The pair is then returned, and the table gains exactly that row under the new refresh token's id. A database failure on the insert gives `StoreFailed`. Any failure leaves the table unchanged. |
| AuthService.NewRow | music_app_backend/internal/auth/service.go:52-66 | A row exists exactly for a refresh token that verifies now with both timestamps; it carries that token's id, owner and expiry, unrevoked. |
| AuthService.Fresh | music_app_backend/internal/auth/service.go:44-72 | The signed pair and its row exist exactly when signing succeeds and the row exists, and they are those two. |
| AuthService.AuthService.GenerateTokens | music_app_backend/internal/auth/service.go:44-72 | The result and the new table are `Issue` of the old table. |
| AuthService.Rotate | music_app_backend/internal/auth/service.go:75-127 | A token that does not verify, a failed lookup, a missing row and a revoked or expired row each give their own error. They are checked in that order, and each error occurs exactly when its condition holds. A rotation succeeds exactly when the row is valid, the insert's database call works and the successor can be signed, read back and stored. The table then gains the successor's row. Only with the write-back is the consumed row revoked and made to name its successor. Any failure, including a failed insert, leaves the table unchanged. |
| AuthService.AuthService.RefreshTokens | music_app_backend/internal/auth/service.go:75-127 | The source as written: the result and new table are `Rotate` without writing back the consumed token's revocation. |
| AuthService.RotationLeavesConsumedTokenValid | music_app_backend/internal/auth/service.go:108-123 | As written, a successful rotation leaves the consumed token's row exactly as it was, still valid. |
| AuthService.ReplayAccepted | music_app_backend/internal/auth/service.go:75-127 | As written, the same refresh token can be exchanged a second time whenever the new identifiers are unused. |
| AuthService.AuthService.RefreshTokensCorrected | music_app_backend/internal/auth/service.go:108-123 | The rotation with the consumed token's revocation and successor persisted. |
| AuthService.AuthService.RotateWith | music_app_backend/internal/auth/service.go:75-127 | The shared body of both rotations, equal to `Rotate` with or without the write-back. |
| AuthService.CorrectedRotationRefusesReplay | music_app_backend/internal/auth/service.go:108-123 | With the write-back, the consumed token's row is revoked and names the new refresh token's id, and every later exchange of it is refused. |
| AuthService.IssuedThenRotated | music_app_backend/internal/auth/service.go:44-127 | A freshly issued refresh token can be exchanged at once. The new pair carries the same user, email and roles. |
| AuthService.Logout | music_app_backend/internal/auth/service.go:130-144 | A token that does not verify is refused. A verified token whose revocation fails in the database gives `RevokeFailed`, and both failures leave the table unchanged. Otherwise logout succeeds and the table becomes `RevokeTokenId` for the token's id. |
| AuthService.AuthService.RevokeToken | music_app_backend/internal/auth/service.go:130-144 | The result and the new table are `Logout` of the old table. |
| AuthService.LogoutThenRefreshRefused | music_app_backend/internal/auth/service.go:130-144 | After a successful logout the refresh token can never be exchanged again. |
| AuthService.AuthService.RevokeAllUserTokens | music_app_backend/internal/auth/service.go:147-154 | A database failure gives `RevokeFailed` and leaves the table unchanged. Otherwise every token of the user is revoked, as `TokenStore.RevokeUserEffect` describes. |
| AuthService.AuthService.CleanupExpiredTokens | music_app_backend/internal/auth/service.go:162-164 | The repository's database error is passed on unchanged, and the table stays as it was. Otherwise expired rows are deleted, as `TokenStore.CleanedEffect` describes. |
| Users.NewUser | music_app_backend/internal/user/service.go:58-64 | A new account has the given id, email, password hash and Google id, the single role `user`, is active and has never logged in. |
| Users.FirstWhere | music_app_backend/internal/user/repository.go:26-45 | `First` finds the earliest row satisfying the where-clause, and no row before it satisfies it. When there is none, no row at all satisfies it. |
| Users.Lookup | music_app_backend/internal/user/repository.go:26-45 | A failing database gives `Unavailable`. Otherwise the lookup finds the first matching row exactly when there is one, and gives not-found otherwise. |
| Users.Inserted | music_app_backend/internal/user/repository.go:21-24 | `CreateUser` appends the row exactly when no unique key collides and otherwise leaves the table unchanged. The id, email and Google id stay unique. |
| Users.Saved | music_app_backend/internal/user/repository.go:47-49 | `Save` replaces the row with the same primary key, or appends, unless a unique index collides. The keys stay unique. |
| Users.SaveInPlace | music_app_backend/internal/user/repository.go:47-49 | A user whose keys are unchanged is saved over its own row without a collision. |
| Users.UserRepository.Create | music_app_backend/internal/user/repository.go:21-24 | The result and the new table are `Inserted` of the old table. |
| Users.UserRepository.Save | music_app_backend/internal/user/repository.go:47-49 | The result and the new table are `Saved` of the old table. |
| Users.Register | music_app_backend/internal/user/service.go:43-73 | A taken email is refused and a failed lookup reported. A hashing failure is passed on as that failure, and a failed insert as the database's error. Registration succeeds exactly when the lookup works, the email is free, hashing succeeds, the insert works and the new account collides with no key. The new account carries the fresh id, the email, the display name, role `user`, no Google id, and the hasher's hash of the password, and is appended. Any failure leaves the table unchanged and the keys stay unique. |
| Users.UserService.CreateUser | music_app_backend/internal/user/service.go:43-73 | The result and the new table are `Register` of the old table. |
| Users.ProvisionGoogle | music_app_backend/internal/user/service.go:76-105 | A known Google id yields that account with its login time set to now, saved back in place; on a table with unique keys that succeeds exactly when the write works. An unknown one yields a new active `user` account with that Google id, the email and no password, appended; that succeeds exactly when the write works and no key collides. A failed write is the database's error and changes nothing. |
| Users.UserService.CreateGoogleUser | music_app_backend/internal/user/service.go:76-105 | The result and the new table are `ProvisionGoogle` of the old table. |
| Users.KnownGoogleUserLogsIn | music_app_backend/internal/user/service.go:77-82 | A known Google account is returned with its login time set, saved in place, and no account is added. |
| Users.Authenticate | music_app_backend/internal/user/service.go:108-133 | Login succeeds exactly when the email's account exists, has a password hash and the hash matches. The account is returned with its login time set to now, and the table becomes the save of it. A stored hash that makes the hasher panic is passed on as that panic, exactly in that case. Every other outcome leaves the table unchanged and, apart from a database failure, is the single `AuthenticationFailed`. |
| Users.UserService.AuthenticateUser | music_app_backend/internal/user/service.go:108-133 | The result and the new table are `Authenticate` of the old table. |
| Users.RegisteredUserAuthenticates | music_app_backend/internal/user/service.go:43-133 | A freshly registered account logs in with its password through any hasher configuration. A password whose derived key differs is refused. |
| Users.UnknownEmailAndWrongPasswordAlike | music_app_backend/internal/user/service.go:109-124 | An unknown email, a missing hash, an unreadable hash and a wrong password give the same answer and change nothing; only a hash that makes the hasher panic answers differently. |
| Users.InactiveAccountsLogIn | music_app_backend/internal/user/service.go:108-133 | Deactivating an account never changes whether it can log in. |
| Users.FirstWhereIgnoresActivity | music_app_backend/internal/user/repository.go:26-31 | Deactivating a row changes neither which row an email lookup finds nor its password. |
| Users.FindById | music_app_backend/internal/user/service.go:136-150 | An id that does not parse as a UUID is refused as invalid. Otherwise the stored user with that id is returned, or not-found. |
| Users.UserService.GetUserById | music_app_backend/internal/user/service.go:136-150 | The answer is `FindById` on the current table. |
| Users.CurrentPrefs | music_app_backend/internal/user/service.go:175-181 | Stored preferences are undecodable exactly when the column holds bytes that are not a JSON object. NULL starts from an empty object. |
| Users.Patched | music_app_backend/internal/user/service.go:165-170 | Only supplied profile fields replace the stored ones, and nothing else changes. |
| Users.MergePreferences | music_app_backend/internal/user/service.go:183-185 | The merged preferences hold every current and supplied key. Supplied values override and the other current values are kept. |
| Users.Applied | music_app_backend/internal/user/service.go:167-191 | The updated account exists exactly unless preferences are supplied over stored bytes that do not decode. Only the supplied display name and photo change; supplied preference keys take the supplied values and the other stored keys are kept. |
| Users.ApplyUpdate | music_app_backend/internal/user/service.go:167-191 | The field updates and the merge loop produce exactly `Applied`'s account, or the refusal. |
| Users.UpdateProfile | music_app_backend/internal/user/service.go:153-199 | A failed lookup is reported as `FindById` reports it. Supplied preferences over stored bytes that do not decode are `PreferencesUnparsable`. Otherwise a failed save is the database's error, and on a table with unique keys the update succeeds exactly when the save works. On success only the supplied display name and photo change, the preferences are merged key by key when supplied, and the table becomes the save of the updated account. Any failure leaves the table unchanged and the keys stay unique. |
| Users.Persist | music_app_backend/internal/user/service.go:193-198 | The final write returns the updated user, or leaves the table unchanged on failure. |
| Users.UserService.UpdateUser | music_app_backend/internal/user/service.go:153-199 | The result and the new table are `UpdateProfile` of the old table. |
| AuthHandlers.StatusOf | music_app_backend/internal/transport/http/auth_handlers.go:219-272 | Token and message replies are answered with 200. |
| AuthHandlers.EmailOf | music_app_backend/internal/transport/http/auth_handlers.go:66-69 | The email put into the token claims is the account's email, or empty when it has none. |
| AuthHandlers.BindingFailureAsWritten | music_app_backend/pkg/response/response.go:101-114 | As written, a body that fails validation gets 400 `VALIDATION_ERROR`, and a body that does not decode (malformed JSON, a wrongly typed field, an empty body) gets the recovery middleware's 500 `INTERNAL_ERROR`. |
| AuthHandlers.BindingFailure | music_app_backend/pkg/response/response.go:101-114 | Corrected: every body that does not bind gets 400 `VALIDATION_ERROR`. |
| AuthHandlers.UndecodableBodyIsServerError | music_app_backend/pkg/response/response.go:102-103 | The two differ exactly on a body that does not decode. As written it is answered with 500, because the unchecked assertion panics; corrected it gets 400. |
| AuthHandlers.AuthHandlers.Register | music_app_backend/internal/transport/http/auth_handlers.go:43-100 | A bad body gets the binding reply as written and changes nothing. A taken email gets 409 `USER_EXISTS`; a hasher panic gets the recovery middleware's 500; another registration failure gets 500 `REGISTRATION_FAILED`; none stores a token. Otherwise tokens are issued for the new account: 201 with the user and pair, or 500 `TOKEN_GENERATION_FAILED` with the account kept. |
| AuthHandlers.AuthHandlers.Login | music_app_backend/internal/transport/http/auth_handlers.go:102-155 | A bad body gets the binding reply as written and changes nothing. A stored hash that makes the hasher panic gets the recovery middleware's 500; every other authentication failure is the same 401; neither stores a token. A success issues a pair for the account and answers 200, or 500 when issuing fails. |
| AuthHandlers.AuthHandlers.GoogleSignIn | music_app_backend/internal/transport/http/auth_handlers.go:157-217 | A bad body gets the binding reply as written and changes nothing. A rejected Google token gets 401 and changes nothing. A provisioning failure gets 500. Otherwise tokens are issued for the provisioned account. |
| AuthHandlers.AuthHandlers.RefreshToken | music_app_backend/internal/transport/http/auth_handlers.go:219-252 | As written: a bad body gets the binding reply as written; every rotation failure is the same 401 and leaves the table unchanged; a success answers the new pair, and the rotation does not revoke the consumed token, so it can be exchanged again. |
| AuthHandlers.AuthHandlers.RefreshTokenCorrected | music_app_backend/internal/transport/http/auth_handlers.go:219-252 | Corrected: every body that does not bind gets 400, and the rotation writes the consumed token's revocation back, so a replay gets 401. |
| AuthHandlers.AuthHandlers.Logout | music_app_backend/internal/transport/http/auth_handlers.go:254-272 | A bad body gets the binding reply as written and changes nothing. Otherwise logout always answers success, and the table becomes the logout's effect. When the revocation fails in the database the answer is still success, but the table is unchanged, so the token stays usable. |
| Middleware.Context.constructor | music_app_backend/internal/middleware/middleware.go:17-27 | A request context starts with its values, no headers and no rejection. |
| Middleware.RequestIdFor | music_app_backend/internal/middleware/middleware.go:19-22 | An incoming request id is kept. Otherwise a fresh UUID's text is used, which parses back to that UUID. |
| Middleware.RequestId | music_app_backend/internal/middleware/middleware.go:17-27 | The id is stored in the context and echoed in `X-Request-ID`, and nothing else changes. |
| Middleware.LogLevel | music_app_backend/internal/middleware/middleware.go:43-48 | A finished request is logged as a warning exactly for 4xx, an error exactly from 500 on, and info below 400. |
| Middleware.Admission | music_app_backend/internal/middleware/middleware.go:109-157 | The checks run in order: a missing header, then a header without an extractable token, each with its own 401. A caller is admitted exactly when the extracted token verifies as an access token, with that token's claims. Every rejection is a 401. |
| Middleware.WithClaims | music_app_backend/internal/middleware/middleware.go:151-154 | An admitted caller's id, email, roles and claims are set in the context, and every other entry is kept. |
| Middleware.JwtAuth | music_app_backend/internal/middleware/middleware.go:109-157 | A refused caller aborts the chain with the admission's rejection and no entries set. An admitted one gets its entries and no rejection. |
| Middleware.OptionalAuth | music_app_backend/internal/middleware/middleware.go:160-187 | The chain is never aborted. The caller's entries are set exactly when admission would succeed. |
| Middleware.HasRole | music_app_backend/internal/middleware/middleware.go:218-224 | The scan finds a grant exactly when the roles include the required role or `admin`. |
| Middleware.RequireRole | music_app_backend/internal/middleware/middleware.go:190-240 | The request is rejected with 403 exactly when the context does not grant the role. Nothing else changes. |
| Middleware.RoleCheckAfterAdmission | music_app_backend/internal/middleware/middleware.go:109-240 | After admission the role check passes exactly when the token's roles include the role or `admin`. Without an admission it never passes. |
| Middleware.CspFor | music_app_backend/internal/middleware/middleware.go:251-255 | The relaxed policy applies exactly under `/docs/` and the strict one everywhere else. |
| Middleware.SecurityHeaders | music_app_backend/internal/middleware/middleware.go:243-259 | The five security headers are set, with the policy for the path. Nothing else changes. |
| Middleware.ContentTypeCheck | music_app_backend/internal/middleware/middleware.go:262-279 | A request is refused with 400 exactly when it is a POST, PUT or PATCH whose Content-Type does not contain `application/json`. |
| Middleware.JsonMediaTypePasses | music_app_backend/internal/middleware/middleware.go:264-266 | A JSON media type with parameters passes, and a GET passes whatever its header. |
| Middleware.ContentType | music_app_backend/internal/middleware/middleware.go:262-279 | The context is rejected exactly as the check says, and nothing else changes. |
| Paging.InsertDesc | music_app_backend/internal/playlist/repository.go:43-44 | Inserting a row adds exactly that row and lengthens the list by one; the new head is either the row or the old head. |
| Paging.InsertDescSorted | music_app_backend/internal/playlist/repository.go:43-44 | Inserting a row into a newest-first list keeps it newest-first. |
| Paging.SortDesc | music_app_backend/internal/playlist/repository.go:43-44 | `ORDER BY created_at DESC` yields a permutation of the rows, newest first. |
| Paging.Filter | music_app_backend/internal/playlist/repository.go:37 | The where-clause selects exactly the rows that satisfy it. |
| Paging.FilterNone | music_app_backend/internal/playlist/repository.go:37 | A where-clause no row satisfies selects nothing. |
| Paging.Count | music_app_backend/internal/playlist/repository.go:37-41 | The COUNT equals the number of selected rows. |
| Paging.PageOf | music_app_backend/internal/playlist/repository.go:43-44 | `LIMIT size OFFSET (page-1)*size` gives the rows from that offset on, at most `size` of them. It is empty beyond the end. |
| Paging.PageOfSorted | music_app_backend/internal/playlist/repository.go:43-44 | A page of an ordered listing is itself ordered. |
| Paging.Listing | music_app_backend/internal/playlist/repository.go:33-47 | One page of a list query holds at most `size` selected rows, newest first, with the count of all selected rows. |
| Paging.ListingPagesCover | music_app_backend/internal/playlist/repository.go:33-47 | Reading pages 1..n, once n pages hold the count, yields every selected row exactly once. |
| Paging.PagesArePrefix | music_app_backend/internal/playlist/repository.go:43-44 | Consecutive pages read the ordered rows without gaps or repeats. |
| Paging.Defaulted | music_app_backend/internal/playlist/service.go:89-94 | A page below 1 becomes 1 and a size below 1 becomes the default. Positive values are kept. |
| Playlists.RowIndex | music_app_backend/internal/playlist/repository.go:26-30 | Finds a row with the id exactly when one exists. |
| Playlists.Load | music_app_backend/internal/playlist/repository.go:26-30 | A failing database gives `Unavailable`. Otherwise a playlist is found exactly when its row exists, with exactly its own tracks preloaded. A missing row is not-found. |
| Playlists.PlaylistRepository.GetById | music_app_backend/internal/playlist/repository.go:26-30 | The answer is `Load` on the current tables. |
| Playlists.PlaylistRepository.Create | music_app_backend/internal/playlist/repository.go:21-23 | The row is appended exactly when the database is up and its id is new; a taken id is a duplicate key. The tracks are untouched. |
| Playlists.PlaylistRepository.GetUserPlaylists | music_app_backend/internal/playlist/repository.go:33-47 | The answer is the owner's listing, newest first, with its count. |
| Playlists.SavedRow | music_app_backend/internal/playlist/repository.go:50-52 | `Save` replaces the row with the same id, or appends a new one. Every other row is kept. |
| Playlists.PlaylistRepository.Update | music_app_backend/internal/playlist/repository.go:50-52 | Unless the database fails, the playlists become `SavedRow` of the old ones; the tracks are untouched. |
| Playlists.WithoutPlaylist | music_app_backend/internal/playlist/repository.go:55-58 | Deletion keeps exactly the other playlists. |
| Playlists.WithoutTracksOf | music_app_backend/internal/playlist/repository.go:55-58 | The cascade keeps exactly the tracks of other playlists. |
| Playlists.PlaylistRepository.Delete | music_app_backend/internal/playlist/repository.go:55-58 | Unless the database fails, the playlist goes together with all its tracks. |
| Playlists.DeleteCascades | music_app_backend/internal/playlist/repository.go:55-58 | After a deletion every track still belongs to a stored playlist, none belongs to the deleted one, and every other track is kept. |
| Playlists.PlaylistRepository.AddTrack | music_app_backend/internal/playlist/repository.go:61-63 | The track is appended exactly when the database is up and its playlist exists; otherwise it is a foreign-key violation. |
| Playlists.WithoutTrack | music_app_backend/internal/playlist/repository.go:73-75 | Removal keeps every track except the one with that id in that playlist. |
| Playlists.PlaylistRepository.RemoveTrack | music_app_backend/internal/playlist/repository.go:73-75 | Unless the database fails, the tracks become `WithoutTrack` of the old ones. |
| Playlists.PlaylistRepository.GetTrack | music_app_backend/internal/playlist/repository.go:66-70 | A track is found exactly when one with that id belongs to that playlist. A track of another playlist is not-found. |
| Playlists.MaxOf | music_app_backend/internal/playlist/repository.go:78-82 | The largest position among a playlist's tracks, present exactly when the playlist has tracks. |
| Playlists.MaxPosition | music_app_backend/internal/playlist/repository.go:78-82 | `COALESCE(MAX(position), 0)`: at least every position of the playlist, attained by one of them, and 0 for an empty playlist. |
| Playlists.PlaylistRepository.GetMaxPosition | music_app_backend/internal/playlist/repository.go:78-82 | The answer is `MaxPosition` unless the database fails. |
| Playlists.NextPositionKeepsDistinct | music_app_backend/internal/playlist/service.go:152-168 | A track appended at the maximum position plus one comes after every track of its playlist, and positions stay distinct within every playlist. |
| Playlists.OwnedPlaylist | music_app_backend/internal/playlist/service.go:215-240 | The caller's id is checked first, then the playlist's id. The playlist is returned exactly when both parse, it loads, and its owner is the caller. A loaded playlist of another owner is `NotPlaylistOwner`, a missing one not-found, and a database failure is passed on; all of this precedes any write. |
| Playlists.PrivatePlaylistOwnerOnly | music_app_backend/internal/playlist/service.go:70-77 | A private playlist is visible exactly to a caller whose id parses to its owner, never anonymously, and always to its owner. |
| Playlists.Updated | music_app_backend/internal/playlist/service.go:112-120 | Only the supplied title, description and visibility change; Save stamps the update time. |
| Playlists.PlaylistService.CreatePlaylist | music_app_backend/internal/playlist/service.go:32-52 | A malformed caller id is refused before any write. Creation succeeds exactly when the caller's id parses, the database works and the fresh id is unused; a failure or a taken id is the database's error. A new playlist is private, owned by the caller, without tracks, and appended to the table. A failure leaves the table as it was. |
| Playlists.PlaylistService.GetPlaylist | music_app_backend/internal/playlist/service.go:55-80 | A malformed id is refused, a database failure gives `Db(Unavailable)` and a missing playlist gives not-found. A loaded playlist is returned exactly when the caller may see it, and otherwise it is refused as not owned. |
| Playlists.PlaylistService.GetUserPlaylists | music_app_backend/internal/playlist/service.go:83-103 | A malformed caller id is refused. Otherwise the answer is the caller's listing for the defaulted page and size. |
| Playlists.PlaylistService.UpdatePlaylist | music_app_backend/internal/playlist/service.go:106-128 | A failed ownership check is reported and changes nothing. Otherwise the updated row is saved and returned with its tracks, or the save's failure is reported with nothing changed. |
| Playlists.PlaylistService.DeletePlaylist | music_app_backend/internal/playlist/service.go:131-143 | Only the owner deletes, and the playlist goes with all its tracks. Every failure changes nothing. |
| Playlists.PlaylistService.AddTrackToPlaylist | music_app_backend/internal/playlist/service.go:146-178 | Only the owner adds. The new track takes the next position after the playlist's current maximum and is appended. The playlist is read back with its tracks, the new one among them. |
| Playlists.PlaylistService.RemoveTrackFromPlaylist | music_app_backend/internal/playlist/service.go:181-198 | Only the owner removes. A malformed track id is refused after the ownership check. Only that track of that playlist goes, and the playlist is read back. |
| Playlists.PlaylistService.ReorderPlaylistTracks | music_app_backend/internal/playlist/service.go:201-212 | Always fails: with the ownership check's error, or else as not implemented. |
| PlaylistDto.TrackResponse | music_app_backend/internal/transport/http/playlist_dto.go:82-94 | A track's answer loses only the owning playlist's id: read back under that id it is the track again. |
| PlaylistDto.TrackOf | music_app_backend/internal/transport/http/playlist_dto.go:82-94 | An answer read back under a playlist id belongs to that playlist and keeps its id and position. |
| PlaylistDto.TrackResponses | music_app_backend/internal/transport/http/playlist_dto.go:82-96 | One answer per track, in the playlist's order. |
| PlaylistDto.TrackResponsesAppend | music_app_backend/internal/transport/http/playlist_dto.go:82-96 | The answers of appended tracks are appended to the answers. |
| PlaylistDto.MapPlaylistToResponse | music_app_backend/internal/transport/http/playlist_dto.go:80-111 | The answer's track count equals the playlist's number of tracks and of answered tracks. The ids and positions follow index by index. |
| PlaylistDto.PlaylistOf | music_app_backend/internal/transport/http/playlist_dto.go:98-110 | Reading an answer back gives a playlist with the answer's ids and tracks, each belonging to it. |
| PlaylistDto.ResponseRoundTrip | music_app_backend/internal/transport/http/playlist_dto.go:80-111 | The answer loses nothing: a playlist whose tracks are its own is recovered from its answer. |
| PlaylistDto.ResponseInjective | music_app_backend/internal/transport/http/playlist_dto.go:80-111 | Two such playlists with the same answer are the same playlist. |
| Library.Insert | music_app_backend/internal/library/repository.go:22-24 | An INSERT appends the row exactly when the database is up and its primary key is free. A taken key is a duplicate and leaves the table unchanged. |
| Library.DeleteWhere | music_app_backend/internal/library/repository.go:44-46 | A DELETE keeps exactly the rows the where-clause misses. As written, matching nothing is not an error. With the affected rows counted, not-found is reported exactly when nothing matched. |
| Library.Upsert | music_app_backend/internal/library/repository.go:119-121 | A `Save` puts the row in the table, replacing only a row with the same key. Every other row is kept. |
| Library.FindFavorite | music_app_backend/internal/library/repository.go:49-58 | A favorite is found exactly when the user has one of that provider track, matched on all three columns. Otherwise it is not-found, or unavailable when the database fails. |
| Library.FavoriteAdded | music_app_backend/internal/library/service.go:34-68 | The user id is checked first. An existing favorite of the same provider track is refused and a lookup failure passed on. Adding succeeds exactly when the id parses, lookup and insert work, the user has no favorite of that track and the fresh id is unused. A new favorite has the fresh id, the user, the track and now, and is appended. Failures change nothing. |
| Library.AddFavoriteKeepsNoDuplicates | music_app_backend/internal/library/service.go:40-47 | Adding favorites through the service never gives a user two favorites of the same provider track. |
| Library.HistoryAdded | music_app_backend/internal/library/service.go:118-144 | Every play of a valid user is appended, the same track as often as it is played. Failures change nothing. |
| Library.DownloadAdded | music_app_backend/internal/library/service.go:171-198 | A new download belongs to the user and track, starts `pending` with the requested quality and no file, and is appended. |
| Library.FavoriteRemoved | music_app_backend/internal/library/service.go:94-113 | The two ids are checked in order. With both valid, a database failure gives `Db(Unavailable)` and changes nothing. With both valid and the database working, the table becomes exactly the old rows minus the caller's favorite with that id. Without row counting the answer is success. With row counting it is not-found exactly when no such row existed. |
| Library.DownloadRemoved | music_app_backend/internal/library/service.go:223-242 | The two ids are checked in order. With both valid, a database failure gives `Db(Unavailable)` and changes nothing. With both valid and the database working, the table becomes exactly the old rows minus the caller's download with that id. Without row counting the answer is success. With row counting it is not-found exactly when no such row existed. |
| Library.RemovalIsOwnerScoped | music_app_backend/internal/library/repository.go:44-46 | Removal deletes only the caller's own row with that id. Other users' rows and the caller's other rows stay. |
| Library.MissingEntryRemovalSucceeds | music_app_backend/internal/library/service.go:104-107 | As written, removing a favorite or download that does not exist, or is someone else's, succeeds. The not-found error is never produced. |
| Library.CountedRemovalReportsMissing | music_app_backend/internal/library/service.go:104-107 | With the affected rows counted, not-found is reported exactly when the caller had no row with that id, and success otherwise. |
| Library.LibraryRepository.constructor | music_app_backend/internal/library/repository.go:15-19 | The three tables start empty. |
| Library.LibraryRepository.AddFavorite | music_app_backend/internal/library/repository.go:22-24 | The favorites become `Insert` of the old ones; the other tables are untouched. |
| Library.LibraryRepository.GetFavorites | music_app_backend/internal/library/repository.go:27-41 | The user's favorites newest first, one page of them, with their count. |
| Library.LibraryRepository.RemoveFavorite | music_app_backend/internal/library/repository.go:44-46 | As written: the favorites become the uncounted `DeleteWhere` on the owner and id. |
| Library.LibraryRepository.RemoveFavoriteCounted | music_app_backend/internal/library/repository.go:44-46 | Corrected: the same delete with zero affected rows reported as not-found. |
| Library.LibraryRepository.FindFavoriteByTrackId | music_app_backend/internal/library/repository.go:49-58 | The answer is `FindFavorite` on the current favorites. |
| Library.LibraryRepository.AddHistory | music_app_backend/internal/library/repository.go:63-65 | The history becomes `Insert` of the old history. |
| Library.LibraryRepository.GetHistory | music_app_backend/internal/library/repository.go:68-82 | The user's plays, most recent first, one page of them, with their count. |
| Library.LibraryRepository.AddDownload | music_app_backend/internal/library/repository.go:87-89 | The downloads become `Insert` of the old ones. |
| Library.LibraryRepository.GetDownloads | music_app_backend/internal/library/repository.go:92-109 | The user's downloads newest first, restricted to one state when given, one page of them, with their count. |
| Library.LibraryRepository.GetDownloadById | music_app_backend/internal/library/repository.go:112-116 | A download is found exactly when the user has one with that id. Another user's download is not-found. |
| Library.LibraryRepository.UpdateDownload | music_app_backend/internal/library/repository.go:119-121 | Unless the database fails, the downloads become `Upsert` of the old ones. |
| Library.LibraryRepository.RemoveDownload | music_app_backend/internal/library/repository.go:124-126 | As written: the uncounted delete on the owner and id. |
| Library.LibraryRepository.RemoveDownloadCounted | music_app_backend/internal/library/repository.go:124-126 | Corrected: the same delete with zero affected rows reported as not-found. |
| Library.LibraryService.AddFavorite | music_app_backend/internal/library/service.go:34-68 | The result and the favorites are `FavoriteAdded` of the old favorites. |
| Library.LibraryService.GetFavorites | music_app_backend/internal/library/service.go:71-92 | A malformed user id is refused. Otherwise the answer is the user's favorites listing for the page and size, defaulted to 1 and 20. |
| Library.LibraryService.RemoveFavorite | music_app_backend/internal/library/service.go:94-113 | As written: `FavoriteRemoved` with the uncounted delete. |
| Library.LibraryService.RemoveFavoriteCorrected | music_app_backend/internal/library/service.go:94-113 | Corrected: `FavoriteRemoved` with the counted delete, so a missing favorite is not-found. |
| Library.LibraryService.AddHistory | music_app_backend/internal/library/service.go:118-144 | The result and the history are `HistoryAdded` of the old history. |
| Library.LibraryService.GetUserHistory | music_app_backend/internal/library/service.go:146-169 | A malformed user id is refused. Otherwise the answer is the user's plays for the page and size, defaulted to 1 and 50. |
| Library.LibraryService.AddDownload | music_app_backend/internal/library/service.go:171-198 | The result and the downloads are `DownloadAdded` of the old downloads. |
| Library.LibraryService.GetUserDownloads | music_app_backend/internal/library/service.go:200-221 | A malformed user id is refused. Otherwise the answer is the user's downloads, optionally in one state, for the page and size, defaulted to 1 and 20. |
| Library.LibraryService.RemoveDownload | music_app_backend/internal/library/service.go:223-242 | As written: `DownloadRemoved` with the uncounted delete. |
| Library.LibraryService.RemoveDownloadCorrected | music_app_backend/internal/library/service.go:223-242 | Corrected: `DownloadRemoved` with the counted delete, so a missing download is not-found. |
| Music.TotalPages | music_app_backend/internal/music/itunes.go:139 | The page count panics exactly when the size is zero, and that is the only way it fails. |
| Music.TotalPagesIsCeiling | music_app_backend/internal/music/itunes.go:139 | For a positive size and a non-negative total, the page count is the least number of pages of that size that holds the total. |
| Registry.SumOverPick | music_app_backend/internal/music/registry.go:240-245 | The summed total does not depend on the order in which providers are taken. |
| Registry.BagOverPick | music_app_backend/internal/music/registry.go:240-245 | The merged tracks, counted with multiplicity, do not depend on that order either. |
| Registry.SuccessTracks | music_app_backend/internal/music/registry.go:89-131 | The successful searches are keyed by exactly the providers among the names whose search succeeded. |
| Registry.SuccessInfos | music_app_backend/internal/music/registry.go:89-131 | Their page information is kept under the same keys. |
| Registry.ErrorsIn | music_app_backend/internal/music/registry.go:89-131 | At most one error is collected per provider that answered. |
| Registry.ErrorsFromProviders | music_app_backend/internal/music/registry.go:89-131 | No error is collected exactly when every search succeeded. Otherwise the first error collected came from a provider that was asked. |
| Registry.ErrorsInSnoc | music_app_backend/internal/music/registry.go:89-131 | One more answer adds its error at the end, or nothing if it succeeded. |
| Registry.ListsGrow | music_app_backend/internal/music/registry.go:63-87 | Taking one more new name from the registry's map keeps the listing complete and free of repeats. |
| Registry.SuccessMaps | music_app_backend/internal/music/registry.go:89-131 | The maps the fan-out collects are exactly the successes. |
| Registry.ProviderRegistry.constructor | music_app_backend/internal/music/registry.go:18-24 | A new registry is empty and remembers the enabled names. |
| Registry.ProviderRegistry.Register | music_app_backend/internal/music/registry.go:26-48 | An enabled provider is stored under its own name, replacing one of that name. A provider that is not enabled is refused with not-enabled and nothing changes. |
| Registry.ProviderRegistry.GetProvider | music_app_backend/internal/music/registry.go:50-61 | A provider is found exactly when one is registered under that name. It then carries that name and the name is enabled. Otherwise the answer is not-registered. |
| Registry.ProviderRegistry.GetEnabledProviders | music_app_backend/internal/music/registry.go:63-74 | Every registered provider appears exactly once, in some order, each matched to its name. |
| Registry.ProviderRegistry.GetProviderNames | music_app_backend/internal/music/registry.go:76-87 | Every registered name appears exactly once, in some order. |
| Registry.ProviderRegistry.SearchAllProviders | music_app_backend/internal/music/registry.go:89-131 | Every registered provider is asked. The results and page infos hold exactly the successes, each with that provider's answer. The errors are the failures in the order they arrived. |
| Registry.Initialized | music_app_backend/internal/music/registry.go:194-214 | iTunes is registered exactly when enabled. Spotify is registered exactly when enabled and both credentials are non-empty. Nothing else is ever registered. |
| Registry.CombinedPage | music_app_backend/internal/music/registry.go:248-255 | The combined page fails exactly for a zero size. Otherwise it carries the page, size and summed total; HasNext holds exactly when the merged count equals the size, HasPrev exactly when the page is past the first; and it has the ceiling page count. |
| Registry.FullPagesHideNext | music_app_backend/internal/music/registry.go:248-255 | When two providers each return a full page, the merged page reports no next page, although both have more. |
| Registry.MusicService.constructor | music_app_backend/internal/music/registry.go:172-192 | The service's registry holds exactly the providers `Initialized` gives for the enabled names and the Spotify credentials. |
| Registry.MusicService.Combine | music_app_backend/internal/music/registry.go:240-245 | Whatever the map order, the merged tracks are every success's tracks with multiplicity, and the total is the sum of their totals. |
| Registry.MusicService.SearchEveryProvider | music_app_backend/internal/music/registry.go:226-257 | With no provider registered, the result is an empty first page. If none succeeded, it is some provider's error. Otherwise it is the merge of all successes. |
| Registry.MusicService.Merge | music_app_backend/internal/music/registry.go:236-257 | The merge of the successes under the combined page. |
| Registry.MusicService.SearchTracks | music_app_backend/internal/music/registry.go:216-259 | As written: a named provider's answer, or not-registered for an unknown name. With no name, the merged search over every provider. |
| Registry.MusicService.SearchTracksCorrected | music_app_backend/internal/music/registry.go:216-259 | Corrected: page and size are defaulted to positive values first. So a merged search never panics on its own division, and any success gives a page. |
| Registry.MusicService.GetTrack | music_app_backend/internal/music/registry.go:261-268 | The named provider's answer, or not-registered. |
| Registry.MusicService.GetTopCharts | music_app_backend/internal/music/registry.go:270-277 | The named provider's charts, or not-registered. |
| Registry.MusicService.GetCategories | music_app_backend/internal/music/registry.go:279-292 | The categories of exactly those registered providers that answered. Failures are dropped and never reported. |
| Registry.MusicService.GetPlaylistsByCategory | music_app_backend/internal/music/registry.go:294-301 | The named provider's playlists, or not-registered. |
| Registry.MusicService.GetProviderNames | music_app_backend/internal/music/registry.go:308-310 | Every registered name exactly once. |
| Registry.ZeroSizeSearchPanics | music_app_backend/internal/music/itunes.go:139 | As written, a search of size zero that reaches its page arithmetic panics, for iTunes and for Spotify. |
| Registry.CorrectedSizeNeverDividesByZero | music_app_backend/internal/music/registry.go:254 | After the defaults, no provider page and no combined page divides by zero. |
| Spotify.ArtistNames | music_app_backend/internal/music/spotify.go:447-450 | One name per artist, in order. |
| Spotify.ConvertTracks | music_app_backend/internal/music/spotify.go:225-228 | Every item is converted, in order. |
| Spotify.ConvertCategories | music_app_backend/internal/music/spotify.go:345-357 | Every category is converted, in order. |
| Spotify.ConvertPlaylists | music_app_backend/internal/music/spotify.go:394-411 | Every playlist is converted, in order. |
| Spotify.Spaced | music_app_backend/internal/music/spotify.go:446-477 | One entry per later artist. |
| Spotify.ArtistsRecoverable | music_app_backend/internal/music/spotify.go:446-477 | Joining artist names without commas by ", " and splitting on commas gives the names back, each later one behind its space. |
| Spotify.ConvertedTrack | music_app_backend/internal/music/spotify.go:446-477 | A converted track names every artist in order. It carries the first album image, or none, and an absent preview becomes "". It is labelled Spotify. |
| Spotify.Limit | music_app_backend/internal/music/spotify.go:195-197 | The limit sent never exceeds 50, and a size up to 50 is sent unchanged. |
| Spotify.TokenStep | music_app_backend/internal/music/spotify.go:135-174 | A cached, unexpired token is reused without a request. Otherwise a token is requested, and one is ready exactly when the grant decoded. A new token expires 60 seconds before Spotify says. A failed fetch keeps the old cache. |
| Spotify.FetchedTokenReused | music_app_backend/internal/music/spotify.go:135-174 | A fetched token is reused until 60 seconds before its stated lifetime ends, and renewed from then on. |
| Spotify.Exchange | music_app_backend/internal/music/spotify.go:177-191 | An answer succeeds exactly when a token is ready and the body decoded. A failed token or request gives the operation's own error, another status `API_ERROR`, and an undecodable body `DECODE_ERROR`. |
| Spotify.TracksResult | music_app_backend/internal/music/spotify.go:194-240 | A ready token and a decoded page succeed exactly unless the limit is zero, which panics. A success converts every item in order; its page carries the limit and total, HasNext and HasPrev follow Spotify's links, and the page count is the ceiling. Request failures pass through. |
| Spotify.TrackResult | music_app_backend/internal/music/spotify.go:243-268 | A track is found exactly when a token is ready and the body decoded. A 404 reads as not found, and a failed request as `GET_TRACK_ERROR`. |
| Spotify.CategoriesResult | music_app_backend/internal/music/spotify.go:323-360 | The categories come in Spotify's order, each with its id, its name, no description and its first icon. |
| Spotify.PlaylistsResult | music_app_backend/internal/music/spotify.go:363-423 | A ready token and a decoded page succeed exactly unless the limit is zero, which panics. Playlists are converted in order with their track counts. HasNext holds exactly when offset plus limit is below the total, and HasPrev exactly when the offset is positive. |
| Spotify.ChartsIgnoreCountry | music_app_backend/internal/music/spotify.go:270-321 | Every country gets the same global Top 50 playlist. |
| Spotify.ConvertAll | music_app_backend/internal/music/spotify.go:225-228 | The conversion loop yields `ConvertTracks` of the items. |
| Spotify.ConvertAllCategories | music_app_backend/internal/music/spotify.go:345-357 | The category loop yields `ConvertCategories`. |
| Spotify.ConvertAllPlaylists | music_app_backend/internal/music/spotify.go:394-411 | The playlist loop yields `ConvertPlaylists`. |
| Spotify.SpotifyProvider.constructor | music_app_backend/internal/music/spotify.go:120-128 | A new provider holds its credentials and no token. |
| Spotify.SpotifyProvider.EnsureToken | music_app_backend/internal/music/spotify.go:135-174 | The cache becomes `TokenStep` of the old cache. |
| Spotify.SpotifyProvider.SearchTracks | music_app_backend/internal/music/spotify.go:194-240 | The limit is capped and the offset is (page-1)*limit. The cache is refreshed as `TokenStep` says, and the answer is `TracksResult` with the search's error code. |
| Spotify.SpotifyProvider.GetTrack | music_app_backend/internal/music/spotify.go:243-268 | The token step, then `TrackResult`. |
| Spotify.SpotifyProvider.GetTopCharts | music_app_backend/internal/music/spotify.go:270-321 | The Top 50 playlist whatever the country, a capped limit, the token step, then `TracksResult` with the chart error code. |
| Spotify.SpotifyProvider.GetCategories | music_app_backend/internal/music/spotify.go:323-360 | The token step, then `CategoriesResult`. |
| Spotify.SpotifyProvider.GetPlaylistsByCategory | music_app_backend/internal/music/spotify.go:363-423 | A capped limit and offset, the token step, then `PlaylistsResult`. |
| ITunes.ReplaceSameLength | music_app_backend/internal/music/itunes.go:237 | Replacing the artwork size by one of the same length keeps the URL's length. |
| ITunes.ArtworkChoice | music_app_backend/internal/music/itunes.go:226-238 | There is artwork exactly when one of the three sizes was sent, the 100-pixel one first. Its first "100x100bb" becomes "600x600bb" and nothing else changes. |
| ITunes.ConvertedTrack | music_app_backend/internal/music/itunes.go:225-255 | Track ids are the decimal iTunes ids, so distinct ids stay distinct. A track is explicit exactly when marked "explicit". It is labelled iTunes. |
| ITunes.ConvertTracks | music_app_backend/internal/music/itunes.go:125-131 | Every item is converted, in order. |
| ITunes.Songs | music_app_backend/internal/music/itunes.go:125-131 | Exactly the results of kind "song" are kept, in order. |
| ITunes.SearchParams | music_app_backend/internal/music/itunes.go:86-105 | The term, media, entity, limit and offset are always sent. A genre is sent exactly when one is given, and "explicit" exactly when the filter sets it, "Yes" for true. |
| ITunes.SearchResult | music_app_backend/internal/music/itunes.go:107-143 | A decoded answer succeeds exactly unless the size is zero, which panics. A success is the songs converted in order. HasNext holds exactly when a full page came back, HasPrev exactly past the first page, and the page count is the ceiling. Each failure has its own code. |
| ITunes.SearchKeepsSongsOnly | music_app_backend/internal/music/itunes.go:125-131 | A search never returns more tracks than results, and each one is a converted iTunes song. |
| ITunes.SongTracks | music_app_backend/internal/music/itunes.go:125-131 | The filtering loop yields the converted songs. |
| ITunes.SearchTracks | music_app_backend/internal/music/itunes.go:85-143 | The parameters sent are `SearchParams`, and the answer is `SearchResult`. |
| ITunes.GetTopCharts | music_app_backend/internal/music/itunes.go:178-182 | The charts are a search for "pop" with no filters, whatever the country. |
| ITunes.LookupResult | music_app_backend/internal/music/itunes.go:146-175 | A track is found exactly when results were counted and sent, and it is the first result. A zero count is not found. A positive count with no results panics on the index. |
| ITunes.CategoriesNumbered | music_app_backend/internal/music/itunes.go:184-199 | Eight categories numbered 1 to 8, so with distinct ids. Each is "<name> music", except Pop, which is "Popular music". None has an icon. |
| ITunes.PlaylistsByCategory | music_app_backend/internal/music/itunes.go:201-203 | Always refused as not supported. |
| Config.Validate | music_app_backend/internal/config/config.go:205-234 | Validation passes exactly when both JWT secrets and the database password are set, and so is the client id of each enabled Google or Spotify provider. The first missing value is reported. The order is the secrets, then the password, then Google's client id, then Spotify's. A Spotify secret is never asked for. |
| Config.ValidatedSpotifyMayBeMissing | music_app_backend/internal/config/config.go:227-231 | A configuration that enables Spotify without its secret validates, yet the service registers no Spotify provider. |
| Config.ValidateCorrected | music_app_backend/internal/config/config.go:227-231 | Corrected: the same checks plus the Spotify secret when Spotify is enabled. |
| Config.ValidatedProvidersAreRegistered | music_app_backend/internal/config/config.go:205-234 | Under the corrected check, every enabled iTunes or Spotify provider ends up registered. |
| Config.DsnPairs | music_app_backend/internal/config/config.go:62-65 | The connection string has six settings. |
| Config.DsnSplits | music_app_backend/internal/config/config.go:62-65 | When no value holds a space, splitting the connection string on spaces gives back the six key=value pairs. |
| Config.DsnInjective | music_app_backend/internal/config/config.go:62-65 | Distinct settings without spaces give distinct connection strings. |
| Config.SpacedPasswordJoin | music_app_backend/internal/config/config.go:62-65 | A password holding a space joins into the string as two fields. |
| Config.SpacedPasswordSplits | music_app_backend/internal/config/config.go:62-65 | Values are not quoted, so such a password comes apart into seven fields. |
| Config.DefaultsMeaning | music_app_backend/internal/config/config.go:155-203 | The defaults sign with HMAC-SHA256, keep access tokens 15 minutes and refresh tokens 30 days, and hash with 64 MiB, 3 passes and 2 lanes. On their own they fail validation on the access secret and register only iTunes. |
| Ids.GoDiv | music_app_backend/internal/music/itunes.go:139 | Go's truncating division agrees with Dafny's when the dividend is non-negative and the divisor positive. |
| Ids.GoDivTruncates | music_app_backend/internal/music/itunes.go:139 | Go's division truncates toward zero: the quotient is non-negative when the operands agree in sign, and the remainder takes the dividend's sign and is smaller than the divisor. |
| Ids.HexValue | music_app_backend/internal/library/service.go:35-38 | A character has a value exactly when it is a hexadecimal digit of either case, and the value is below 16. |
| Ids.HexByte | music_app_backend/internal/library/service.go:35-38 | Two characters make a byte exactly when both are hexadecimal digits. |
| Ids.UuidString | music_app_backend/internal/auth/jwt.go:88 | The text form of a UUID is 36 characters with dashes at 8, 13, 18 and 23. |
| Ids.ParseUuid | music_app_backend/internal/library/service.go:35-38 | Only texts of 32, 36, 38 or 45 characters ever parse. |
| Ids.ParseUuidString | music_app_backend/internal/middleware/middleware.go:150 | The text form of a UUID parses back to the same UUID. |
| Ids.UuidStringInjective | music_app_backend/internal/auth/jwt.go:88 | Distinct UUIDs have distinct text forms. |

## Left out

- Time is whole seconds, and Go's zero `time.Time` is instant 0. Sub-second precision and time zones are not modelled.
- The clock, fresh UUIDs and random salts are parameters of the operations that use them.
- Argon2id key derivation is a function value that the password hasher is given. It is not computed.
- HMAC and RSA signing, and the JWT library's encoding and parsing, are a token codec passed as a value. Its soundness is a stated constraint, not a proof about the library.
- JSON decoding, HTTP requests and every network exchange are represented by the answer they return (`Response<T>` values, bindings, `SearchOutcome` functions of the provider name). URLs, headers, query encoding and Spotify's Basic authentication header are not modelled.
- A database failure is a flag on each call that can fail. Failure causes are not distinguished beyond what the service inspects (record not found, duplicate key, foreign key).
- gorm's timestamps, hooks other than `BeforeCreate`, preloading, and SQL beyond the where-clause, ordering, limit and offset are not modelled. Ties in an ordering keep insertion order.
- The goroutines of `SearchAllProviders` are modelled as an unknown order of arrival. A panic inside one of them would crash the whole process; the model returns it as an error value (`DivideByZero`).
- Requests are modelled one at a time. The gin server runs them concurrently, and the check-then-insert sequences of adding a favorite and appending a playlist track run without a transaction or a unique index to back them.
- Library.AddFavoriteKeepsNoDuplicates: holds only when requests run one at a time. Two concurrent additions of the same track can both pass the lookup and both insert, since no unique index covers (user, provider, track).
- Playlists.NextPositionKeepsDistinct: holds only when requests run one at a time. Two concurrent appends can read the same maximum position and insert the same position, since no unique index covers it.
- Paging.PageOf: the offset `(page-1)*size` is an unbounded integer here. Go's 64-bit `int` wraps for extreme page and size values, which come straight from the query string (`internal/transport/http/music_dto.go:12-13` only supplies defaults when they are absent). The same product is computed at `internal/playlist/repository.go:43`, `internal/library/repository.go:37`, `:78` and `:105`, `internal/music/itunes.go:91` and `internal/music/spotify.go:199`, `:275` and `:368`.
- Music.TotalPages: the page count `(total+size-1)/size` is an unbounded integer here. In Go the sum wraps for a size near the largest 64-bit `int` (`internal/music/itunes.go:139`, `internal/music/spotify.go:236`, `internal/music/registry.go:254`).
- AuthService.Rotate: the corrected rotation (`persist`) writes the consumed token's revocation in the same transaction as the new row, so one failure flag covers both writes. The source, which never writes the revocation, has no such transaction.
- Go's map iteration order is an unknown order. Every contract that depends on it holds for all orders.
- Case folding in `uuid.Parse` covers ASCII letters only.
- Nil and empty slices are not told apart, so an empty `tracks` list in a playlist answer is shown as empty, where Go would encode `null`.
- `UpdateTrackPositions` in the playlist repository has no caller. Reordering is refused as not implemented, so it is not modelled.
- `IsHealthy`, `HealthCheck` and `HealthCheckAll` only probe the network and are not modelled.
- The wrapped cause inside a `ProviderError` is not kept, and the status and body text of Spotify's `API error` message are left out; only the code is stated.
- `config.Load`, viper, the Redis, server, CORS and logging settings, and the provider timeout and cache settings are not modelled. The defaults and the checks on the loaded values are.
- The `Logger`, `Recovery` and `CORS` middleware are not modelled, except for the log level chosen for a finished request. A panic's answer of 500 is stated where a panic is modelled.
- `AuthService.VerifyGoogleIDToken` only delegates to the Google verifier, which is modelled as `Google.VerifyIdToken`. Google's token validation itself (keys, audience, signature) is the verifier's answer passed in.
- Jwt.StringBytes: characters beyond one byte are reduced to their low byte, which is enough for the ASCII keys and identifiers the tokens carry.
- Registry.ProviderRegistry.GetEnabledProviders: providers are modelled by kind and credentials. Their HTTP clients and shared configuration are not.
- Ids.ParseUuid: states only which lengths can parse and, through `Ids.ParseUuidString`, that the canonical form parses back. The braces and `urn:uuid:` forms are modelled in the body but not characterised by a separate lemma.

## Findings

| source | as written | input that shows it | evidently intended | confidence | as-written member | corrected member |
|---|---|---|---|---|---|---|
| music_app_backend/internal/auth/service.go:108-123 | `RefreshTokens` marks the consumed row revoked only on its in-memory copy and never writes it back | exchange a valid refresh token, then exchange the same token again: the second exchange succeeds too | a consumed refresh token is revoked in the store and refused from then on | high, not executed | AuthService.AuthService.RefreshTokens, AuthService.ReplayAccepted | AuthService.AuthService.RefreshTokensCorrected, AuthService.CorrectedRotationRefusesReplay |
| music_app_backend/pkg/response/response.go:102-103 | `ValidationError` asserts that every binding error is a list of validation failures | a register or login body that does not decode, such as `{`, a wrongly typed field or an empty body: the assertion panics and the request is answered 500 | any body that does not bind is answered 400 `VALIDATION_ERROR` | high, not executed | AuthHandlers.BindingFailureAsWritten, AuthHandlers.UndecodableBodyIsServerError | AuthHandlers.BindingFailure, AuthHandlers.AuthHandlers.RefreshTokenCorrected |
| music_app_backend/internal/library/repository.go:44-46 | the delete of a favorite or download ignores the number of rows removed, so the service's not-found branch (service.go:104-107 and 233-236) can never be taken | removing a favorite id the user does not have: the answer is success | a removal that hits no row of the user is reported as not found | medium, not executed | Library.LibraryService.RemoveFavorite, Library.MissingEntryRemovalSucceeds | Library.LibraryService.RemoveFavoriteCorrected, Library.CountedRemovalReportsMissing |
| music_app_backend/internal/music/registry.go:254 | the page arithmetic divides by the requested size, which nothing checks before the providers and the merge use it (itunes.go:139 as well) | a search with size 0: the division by zero panics | a size that is not positive is replaced by the default before any provider is asked | medium, not executed | Registry.MusicService.SearchTracks, Registry.ZeroSizeSearchPanics | Registry.MusicService.SearchTracksCorrected, Registry.CorrectedSizeNeverDividesByZero |
| music_app_backend/internal/config/config.go:227-231 | `validate` checks the Spotify client id but not its secret, while the music service registers Spotify only with both (registry.go:203-204) | providers enabled `["spotify"]`, client id `"id"`, empty secret: validation passes and no Spotify provider is registered | an enabled Spotify provider also needs its client secret | medium, not executed | Config.Validate, Config.ValidatedSpotifyMayBeMissing | Config.ValidateCorrected, Config.ValidatedProvidersAreRegistered |
