/**
 * The authentication endpoints: register, login, Google sign-in, refresh and
 * logout, each a sequence of service calls whose errors are mapped to an HTTP
 * status and an error code.
 */
module AuthHandlers {
  import opened Wrappers
  import opened Ids
  import opened Jwt
  import opened TokenStore
  import opened Users
  import opened Google
  import opened PasswordHash
  import AS = AuthService

  /**
   * The outcome of binding a JSON request body with its validation tags:
   * bound, refused by a validation tag, or not decodable at all (malformed
   * JSON, a field of the wrong type, an empty body).
   */
  datatype Binding<T> = Bound(request: T) | Invalid | Undecodable

  datatype RegisterRequest = RegisterRequest(email: string, password: string, displayName: string)
  datatype LoginRequest = LoginRequest(email: string, password: string)

  /** What a handler writes back. */
  datatype Reply =
    | Failure(status: int, code: string, message: string)
    | Signed(status: int, user: User, tokens: TokenPair)     // an `AuthResponse`
    | Tokens(pair: TokenPair)                                 // 200 with the new pair
    | Message(text: string)                                   // 200 with a message

  function StatusOf(r: Reply): (s: int)
    ensures r.Tokens? || r.Message? ==> s == 200
  {
    match r
    case Failure(s, _, _) => s
    case Signed(s, _, _) => s
    case Tokens(_) => 200
    case Message(_) => 200
  }

  /** A user's email for the token claims, "" when the account has none. */
  function EmailOf(u: User): (e: string)
    ensures u.email.Some? ==> e == u.email.value
    ensures u.email.None? ==> e == ""
  {
    if u.email.Some? then u.email.value else ""
  }

  const ValidationFailed := Failure(400, "VALIDATION_ERROR", "Invalid input provided.")
  const LoginFailed := Failure(401, "AUTHENTICATION_FAILED", "Invalid email or password")
  const TokenGenerationFailure := Failure(500, "TOKEN_GENERATION_FAILED", "Failed to generate authentication tokens")
  const LoggedOut := Message("Logged out successfully")
  /** What the recovery middleware writes after a panic. */
  const Panicked := Failure(500, "INTERNAL_ERROR", "Internal server error occurred")

  /**
   * The reply to a body that did not bind, as `response.ValidationError` is
   * written: it asserts the error is a list of validation failures, so a body
   * that does not decode panics, and the recovery middleware answers 500.
   */
  function BindingFailureAsWritten<T>(b: Binding<T>): (r: Reply)
    requires !b.Bound?
    ensures b.Invalid? ==> r == ValidationFailed
    ensures b.Undecodable? ==> r == Panicked
  {
    if b.Invalid? then ValidationFailed
    else Panicked
  }

  /** The evidently intended reply to a body that did not bind: 400 in every case. */
  function BindingFailure<T>(b: Binding<T>): (r: Reply)
    requires !b.Bound?
    ensures r == ValidationFailed && StatusOf(r) == 400
  {
    ValidationFailed
  }

  /** The two differ exactly on a body that does not decode. */
  lemma UndecodableBodyIsServerError<T>(b: Binding<T>)
    requires !b.Bound?
    ensures BindingFailureAsWritten(b) == BindingFailure(b) <==> b.Invalid?
    ensures b.Undecodable? ==> StatusOf(BindingFailureAsWritten(b)) == 500 && StatusOf(BindingFailure(b)) == 400
  {
  }

  class AuthHandlers {
    const users: UserService
    const auth: AS.AuthService

    ghost predicate Valid()
      reads this, users, users.repo, auth, auth.repo
    {
      users.repo.Valid() && auth.Valid()
    }

    constructor (users: UserService, auth: AS.AuthService)
      ensures this.users == users && this.auth == auth
    {
      this.users := users;
      this.auth := auth;
    }

    /**
     * POST /auth/register. Tokens are only generated once the account exists;
     * a token failure leaves the new account in place.
     */
    method Register(body: Binding<RegisterRequest>, userAgent: string, ip: string, now: Time,
                    salt: Option<Salt>, userId: Uuid, lookupFails: bool, createFails: bool,
                    accessId: Uuid, refreshId: Uuid, recordId: Uuid, storeFails: bool) returns (r: Reply)
      requires Valid()
      modifies users.repo, auth.repo
      ensures Valid()
      ensures !body.Bound? ==> r == BindingFailureAsWritten(body) && unchanged(users.repo, auth.repo)
      ensures body.Bound? ==>
        var q := body.request;
        var reg := Users.Register(old(users.repo.users), q.email, q.password, q.displayName, users.hasher, users.kdf,
                                  salt, userId, lookupFails, createFails);
        users.repo.users == reg.1 &&
        (reg.0.Err? ==>
           auth.repo.rows == old(auth.repo.rows) &&
           r == (if reg.0.error == EmailExists then Failure(409, "USER_EXISTS", "user with this email already exists")
                 else if reg.0.error == Hashing(ParameterPanic) then Panicked
                 else Failure(500, "REGISTRATION_FAILED", "Failed to create user account"))) &&
        (reg.0.Ok? ==>
           var iss := AS.Issue(auth.jwt, old(auth.repo.rows), reg.0.value.id, EmailOf(reg.0.value), reg.0.value.roles,
                            userAgent, ip, now, accessId, refreshId, recordId, storeFails);
           auth.repo.rows == iss.1 &&
           r == (if iss.0.Err? then TokenGenerationFailure else Signed(201, reg.0.value, iss.0.value)))
    {
      if !body.Bound? {
        return BindingFailureAsWritten(body);
      }
      var q := body.request;
      var created := users.CreateUser(q.email, q.password, q.displayName, salt, userId, lookupFails, createFails);
      if created.Err? {
        if created.error == EmailExists {
          return Failure(409, "USER_EXISTS", "user with this email already exists");
        }
        if created.error == Hashing(ParameterPanic) {
          return Panicked;
        }
        return Failure(500, "REGISTRATION_FAILED", "Failed to create user account");
      }
      var u := created.value;
      var tokens := auth.GenerateTokens(u.id, EmailOf(u), u.roles, userAgent, ip, now, accessId, refreshId, recordId, storeFails);
      if tokens.Err? {
        return TokenGenerationFailure;
      }
      return Signed(201, u, tokens.value);
    }

    /**
     * POST /auth/login: every authentication error gives the same 401, except
     * a stored hash that makes the hasher panic, which the recovery
     * middleware answers with 500.
     */
    method Login(body: Binding<LoginRequest>, userAgent: string, ip: string, now: Time,
                 lookupFails: bool, saveFails: bool, accessId: Uuid, refreshId: Uuid, recordId: Uuid,
                 storeFails: bool) returns (r: Reply)
      requires Valid()
      modifies users.repo, auth.repo
      ensures Valid()
      ensures !body.Bound? ==> r == BindingFailureAsWritten(body) && unchanged(users.repo, auth.repo)
      ensures body.Bound? ==>
        var q := body.request;
        var a := Authenticate(old(users.repo.users), q.email, q.password, users.hasher, users.kdf, now, lookupFails, saveFails);
        users.repo.users == a.1 &&
        (a.0.Err? ==> r == (if a.0.error == Hashing(ParameterPanic) then Panicked else LoginFailed) &&
                      auth.repo.rows == old(auth.repo.rows)) &&
        (a.0.Ok? ==>
           var iss := AS.Issue(auth.jwt, old(auth.repo.rows), a.0.value.id, EmailOf(a.0.value), a.0.value.roles,
                            userAgent, ip, now, accessId, refreshId, recordId, storeFails);
           auth.repo.rows == iss.1 &&
           r == (if iss.0.Err? then TokenGenerationFailure else Signed(200, a.0.value, iss.0.value)))
    {
      if !body.Bound? {
        return BindingFailureAsWritten(body);
      }
      var q := body.request;
      var authenticated := users.AuthenticateUser(q.email, q.password, now, lookupFails, saveFails);
      if authenticated.Err? {
        return if authenticated.error == Hashing(ParameterPanic) then Panicked else LoginFailed;
      }
      var u := authenticated.value;
      var tokens := auth.GenerateTokens(u.id, EmailOf(u), u.roles, userAgent, ip, now, accessId, refreshId, recordId, storeFails);
      if tokens.Err? {
        return TokenGenerationFailure;
      }
      return Signed(200, u, tokens.value);
    }

    /**
     * POST /auth/google. `validated` is the outcome of Google's own token
     * validation; tokens are issued only for the provisioned account.
     */
    method GoogleSignIn(body: Binding<string>, validated: Option<Payload>, userAgent: string, ip: string, now: Time,
                        userId: Uuid, lookupFails: bool, writeFails: bool,
                        accessId: Uuid, refreshId: Uuid, recordId: Uuid, storeFails: bool) returns (r: Reply)
      requires Valid()
      modifies users.repo, auth.repo
      ensures Valid()
      ensures !body.Bound? ==> r == BindingFailureAsWritten(body) && unchanged(users.repo, auth.repo)
      ensures body.Bound? && VerifyIdToken(validated).Err? ==>
        r == Failure(401, "INVALID_GOOGLE_TOKEN", "Invalid Google ID token") && unchanged(users.repo, auth.repo)
      ensures body.Bound? && VerifyIdToken(validated).Ok? ==>
        var g := VerifyIdToken(validated).value;
        var p := ProvisionGoogle(old(users.repo.users), g.id, g.email, g.name, g.picture, now, userId, lookupFails, writeFails);
        users.repo.users == p.1 &&
        (p.0.Err? ==>
           r == Failure(500, "GOOGLE_USER_CREATION_FAILED", "Failed to process Google user") &&
           auth.repo.rows == old(auth.repo.rows)) &&
        (p.0.Ok? ==>
           var iss := AS.Issue(auth.jwt, old(auth.repo.rows), p.0.value.id, EmailOf(p.0.value), p.0.value.roles,
                            userAgent, ip, now, accessId, refreshId, recordId, storeFails);
           auth.repo.rows == iss.1 &&
           r == (if iss.0.Err? then TokenGenerationFailure else Signed(200, p.0.value, iss.0.value)))
    {
      if !body.Bound? {
        return BindingFailureAsWritten(body);
      }
      var g := VerifyIdToken(validated);
      if g.Err? {
        return Failure(401, "INVALID_GOOGLE_TOKEN", "Invalid Google ID token");
      }
      var provisioned := users.CreateGoogleUser(g.value.id, g.value.email, g.value.name, g.value.picture, now, userId,
                                                lookupFails, writeFails);
      if provisioned.Err? {
        return Failure(500, "GOOGLE_USER_CREATION_FAILED", "Failed to process Google user");
      }
      var u := provisioned.value;
      var tokens := auth.GenerateTokens(u.id, EmailOf(u), u.roles, userAgent, ip, now, accessId, refreshId, recordId, storeFails);
      if tokens.Err? {
        return TokenGenerationFailure;
      }
      return Signed(200, u, tokens.value);
    }

    /**
     * POST /auth/refresh, as written: every rotation error gives the same 401,
     * and the consumed token's row is left valid, so it can be exchanged again.
     */
    method RefreshToken(body: Binding<string>, userAgent: string, ip: string, now: Time, lookupFailure: bool, storeFails: bool,
                        accessId: Uuid, refreshId: Uuid, recordId: Uuid) returns (r: Reply)
      requires Valid()
      modifies auth.repo
      ensures Valid()
      ensures !body.Bound? ==> r == BindingFailureAsWritten(body) && unchanged(auth.repo)
      ensures body.Bound? ==>
        var o := AS.Rotate(auth.jwt, old(auth.repo.rows), body.request, userAgent, ip, now, lookupFailure, storeFails, accessId, refreshId, recordId, false);
        auth.repo.rows == o.1 &&
        r == (if o.0.Err? then Failure(401, "TOKEN_REFRESH_FAILED", "Invalid or expired refresh token") else Tokens(o.0.value))
    {
      if !body.Bound? {
        return BindingFailureAsWritten(body);
      }
      var pair := auth.RefreshTokens(body.request, userAgent, ip, now, lookupFailure, storeFails, accessId, refreshId, recordId);
      if pair.Err? {
        return Failure(401, "TOKEN_REFRESH_FAILED", "Invalid or expired refresh token");
      }
      return Tokens(pair.value);
    }

    /**
     * POST /auth/refresh as evidently intended: the consumed token is revoked
     * in the store, and every body that does not bind is answered 400.
     */
    method RefreshTokenCorrected(body: Binding<string>, userAgent: string, ip: string, now: Time, lookupFailure: bool, storeFails: bool,
                                 accessId: Uuid, refreshId: Uuid, recordId: Uuid) returns (r: Reply)
      requires Valid()
      modifies auth.repo
      ensures Valid()
      ensures !body.Bound? ==> r == BindingFailure(body) && unchanged(auth.repo)
      ensures body.Bound? ==>
        var o := AS.Rotate(auth.jwt, old(auth.repo.rows), body.request, userAgent, ip, now, lookupFailure, storeFails, accessId, refreshId, recordId, true);
        auth.repo.rows == o.1 &&
        r == (if o.0.Err? then Failure(401, "TOKEN_REFRESH_FAILED", "Invalid or expired refresh token") else Tokens(o.0.value))
    {
      if !body.Bound? {
        return BindingFailure(body);
      }
      var pair := auth.RefreshTokensCorrected(body.request, userAgent, ip, now, lookupFailure, storeFails, accessId, refreshId, recordId);
      if pair.Err? {
        return Failure(401, "TOKEN_REFRESH_FAILED", "Invalid or expired refresh token");
      }
      return Tokens(pair.value);
    }

    /**
     * POST /auth/logout: success whether or not the revocation went through;
     * when it fails the table is left as it was, so the token stays usable.
     */
    method Logout(body: Binding<string>, now: Time, revokeFails: bool) returns (r: Reply)
      requires Valid()
      modifies auth.repo
      ensures Valid()
      ensures !body.Bound? ==> r == BindingFailureAsWritten(body) && unchanged(auth.repo)
      ensures body.Bound? ==> r == LoggedOut && auth.repo.rows == AS.Logout(auth.jwt, old(auth.repo.rows), body.request, now, revokeFails).1
      ensures body.Bound? && revokeFails ==> r == LoggedOut && auth.repo.rows == old(auth.repo.rows)
    {
      if !body.Bound? {
        return BindingFailureAsWritten(body);
      }
      var _ := auth.RevokeToken(body.request, now, revokeFails);
      return LoggedOut;
    }
  }
}
