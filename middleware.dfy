/**
 * The HTTP middleware chain: request ids, the log level of a finished
 * request, bearer-token admission (required or optional), role checks,
 * security headers and the JSON content-type gate. A request's context is a
 * `Context` object whose entries the middleware set in place; a middleware
 * that aborts the chain records the rejection it wrote.
 */
module Middleware {
  import opened Wrappers
  import opened Ids
  import opened Text
  import opened Jwt

  /** A value stored in the request context. */
  datatype CtxValue = Str(s: string) | StrList(items: seq<string>) | ClaimSet(claims: Claims)

  datatype Rejection = Rejection(status: int, code: string, message: string)

  const MissingToken := Rejection(401, "MISSING_TOKEN", "Authorization header is required")
  const InvalidTokenFormat := Rejection(401, "INVALID_TOKEN_FORMAT", "Invalid authorization header format")
  const InvalidToken := Rejection(401, "INVALID_TOKEN", "Invalid or expired token")
  const InsufficientPermissions := Rejection(403, "INSUFFICIENT_PERMISSIONS", "Insufficient permissions")
  const InvalidContentType := Rejection(400, "INVALID_CONTENT_TYPE", "Content-Type must be application/json")

  class Context {
    var values: map<string, CtxValue>
    var headers: map<string, string>
    var rejection: Option<Rejection>

    constructor (values: map<string, CtxValue>)
      ensures this.values == values && headers == map[] && rejection.None?
    {
      this.values := values;
      headers := map[];
      rejection := None;
    }
  }

  // ------------------------------------------------------------------ request ids and logging

  /** The request id: the incoming X-Request-ID when there is one, else a fresh UUID's text. */
  function RequestIdFor(incoming: string, generated: Uuid): (id: string)
    ensures incoming != "" ==> id == incoming
    ensures incoming == "" ==> id == UuidString(generated) && ParseUuid(id) == Some(generated)
  {
    if incoming == "" then
      ParseUuidString(generated);
      UuidString(generated)
    else incoming
  }

  method RequestId(ctx: Context, incoming: string, generated: Uuid)
    modifies ctx
    ensures ctx.values == old(ctx.values)["request_id" := Str(RequestIdFor(incoming, generated))]
    ensures ctx.headers == old(ctx.headers)["X-Request-ID" := RequestIdFor(incoming, generated)]
    ensures ctx.rejection == old(ctx.rejection)
  {
    var id := RequestIdFor(incoming, generated);
    ctx.values := ctx.values["request_id" := Str(id)];
    ctx.headers := ctx.headers["X-Request-ID" := id];
  }

  datatype Level = Info | Warn | Error

  /** The level a finished request is logged at. */
  function LogLevel(status: int): (l: Level)
    ensures l == Warn <==> 400 <= status < 500
    ensures l == Error <==> status >= 500
    ensures l == Info <==> status < 400
  {
    if status >= 400 && status < 500 then Warn
    else if status >= 500 then Error
    else Info
  }

  // ------------------------------------------------------------------ admission

  /**
   * The checks of `JWTAuth`, in order: a header must be present, a token
   * must be extractable from it, and the token must verify as an access
   * token.
   */
  function Admission(j: JwtService, header: string, now: Time): (r: Result<Claims, Rejection>)
    ensures header == "" ==> r == Err(MissingToken)
    ensures header != "" && ExtractTokenFromHeader(header) == "" ==> r == Err(InvalidTokenFormat)
    ensures r.Ok? <==> header != "" && ExtractTokenFromHeader(header) != "" &&
                       j.VerifyAccessToken(ExtractTokenFromHeader(header), now).Ok?
    ensures r.Ok? ==> r.value == j.VerifyAccessToken(ExtractTokenFromHeader(header), now).value &&
                      r.value.typ == TokenTypeAccess && ValidAt(r.value, now)
    ensures r.Err? ==> r.error.status == 401
  {
    if header == "" then Err(MissingToken)
    else
      var token := ExtractTokenFromHeader(header);
      if token == "" then Err(InvalidTokenFormat)
      else match j.VerifyAccessToken(token, now)
        case Err(_) => Err(InvalidToken)
        case Ok(c) => Ok(c)
  }

  /** The context entries set for an admitted caller; nothing else changes. */
  function WithClaims(values: map<string, CtxValue>, c: Claims): (v: map<string, CtxValue>)
    ensures v.Keys == values.Keys + {"user_id", "user_email", "user_roles", "claims"}
    ensures v["user_id"] == Str(UuidString(c.userId)) && v["user_email"] == Str(c.email)
    ensures v["user_roles"] == StrList(c.roles) && v["claims"] == ClaimSet(c)
    ensures forall k :: k in values && k !in {"user_id", "user_email", "user_roles", "claims"} ==> v[k] == values[k]
  {
    values["user_id" := Str(UuidString(c.userId))]["user_email" := Str(c.email)]
          ["user_roles" := StrList(c.roles)]["claims" := ClaimSet(c)]
  }

  method JwtAuth(j: JwtService, header: string, now: Time, ctx: Context)
    modifies ctx
    ensures ctx.headers == old(ctx.headers)
    ensures Admission(j, header, now).Err? ==>
      ctx.rejection == Some(Admission(j, header, now).error) && ctx.values == old(ctx.values)
    ensures Admission(j, header, now).Ok? ==>
      ctx.rejection == old(ctx.rejection) && ctx.values == WithClaims(old(ctx.values), Admission(j, header, now).value)
  {
    if header == "" {
      ctx.rejection := Some(MissingToken);
      return;
    }
    var token := ExtractTokenFromHeader(header);
    if token == "" {
      ctx.rejection := Some(InvalidTokenFormat);
      return;
    }
    var claims := j.VerifyAccessToken(token, now);
    if claims.Err? {
      ctx.rejection := Some(InvalidToken);
      return;
    }
    ctx.values := WithClaims(ctx.values, claims.value);
  }

  /** `OptionalAuth`: never rejects; the caller's entries are set only when admission would succeed. */
  method OptionalAuth(j: JwtService, header: string, now: Time, ctx: Context)
    modifies ctx
    ensures ctx.headers == old(ctx.headers) && ctx.rejection == old(ctx.rejection)
    ensures ctx.values == if Admission(j, header, now).Ok? then WithClaims(old(ctx.values), Admission(j, header, now).value)
                          else old(ctx.values)
  {
    if header == "" {
      return;
    }
    var token := ExtractTokenFromHeader(header);
    if token == "" {
      return;
    }
    var claims := j.VerifyAccessToken(token, now);
    if claims.Err? {
      return;
    }
    ctx.values := WithClaims(ctx.values, claims.value);
  }

  // ------------------------------------------------------------------ roles

  /** A role list grants `role` when it holds that role or "admin". */
  predicate Grants(roles: seq<string>, role: string)
  {
    exists i :: 0 <= i < |roles| && (roles[i] == role || roles[i] == "admin")
  }

  /** The scan of `RequireRole`, stopping at the first granting role. */
  method HasRole(roles: seq<string>, role: string) returns (found: bool)
    ensures found <==> role in roles || "admin" in roles
  {
    found := false;
    var i := 0;
    while i < |roles|
      invariant 0 <= i <= |roles|
      invariant forall k :: 0 <= k < i ==> roles[k] != role && roles[k] != "admin"
    {
      if roles[i] == role || roles[i] == "admin" {
        found := true;
        break;
      }
      i := i + 1;
    }
  }

  /** Whether the context lets `RequireRole(role)` pass. */
  predicate RolePasses(values: map<string, CtxValue>, role: string)
  {
    "user_roles" in values && values["user_roles"].StrList? && Grants(values["user_roles"].items, role)
  }

  method RequireRole(role: string, ctx: Context)
    modifies ctx
    ensures ctx.values == old(ctx.values) && ctx.headers == old(ctx.headers)
    ensures ctx.rejection == if RolePasses(old(ctx.values), role) then old(ctx.rejection) else Some(InsufficientPermissions)
  {
    if "user_roles" !in ctx.values || !ctx.values["user_roles"].StrList? {
      ctx.rejection := Some(InsufficientPermissions);
      return;
    }
    var granted := HasRole(ctx.values["user_roles"].items, role);
    if !granted {
      ctx.rejection := Some(InsufficientPermissions);
    }
  }

  /**
   * After `JWTAuth` admits a caller, `RequireRole(role)` passes exactly when
   * the token's roles include `role` or "admin"; a context no admission
   * touched, without roles, never passes.
   */
  lemma RoleCheckAfterAdmission(j: JwtService, header: string, now: Time, values: map<string, CtxValue>, role: string)
    ensures Admission(j, header, now).Ok? ==>
      (RolePasses(WithClaims(values, Admission(j, header, now).value), role) <==>
       role in Admission(j, header, now).value.roles || "admin" in Admission(j, header, now).value.roles)
    ensures "user_roles" !in values ==> !RolePasses(values, role)
  {
    if Admission(j, header, now).Ok? {
      var roles := Admission(j, header, now).value.roles;
      if role in roles {
        var i :| 0 <= i < |roles| && roles[i] == role;
        assert Grants(roles, role);
      } else if "admin" in roles {
        var i :| 0 <= i < |roles| && roles[i] == "admin";
        assert Grants(roles, role);
      }
    }
  }

  // ------------------------------------------------------------------ headers and content type

  const StrictCsp := "default-src 'self';"
  const RelaxedCsp := "default-src 'self'; script-src 'self' 'unsafe-inline'; style-src 'self' 'unsafe-inline';"

  /** The Content-Security-Policy for a path: relaxed for the API documentation only. */
  function CspFor(path: string): (csp: string)
    ensures csp == RelaxedCsp <==> HasPrefix(path, "/docs/")
    ensures csp == StrictCsp <==> !HasPrefix(path, "/docs/")
  {
    if HasPrefix(path, "/docs/") then RelaxedCsp else StrictCsp
  }

  method SecurityHeaders(ctx: Context, path: string)
    modifies ctx
    ensures ctx.values == old(ctx.values) && ctx.rejection == old(ctx.rejection)
    ensures ctx.headers == old(ctx.headers)["X-Content-Type-Options" := "nosniff"]["X-Frame-Options" := "DENY"]
                            ["X-XSS-Protection" := "1; mode=block"]
                            ["Strict-Transport-Security" := "max-age=31536000; includeSubDomains"]
                            ["Content-Security-Policy" := CspFor(path)]
  {
    ctx.headers := ctx.headers["X-Content-Type-Options" := "nosniff"]["X-Frame-Options" := "DENY"]
                              ["X-XSS-Protection" := "1; mode=block"]
                              ["Strict-Transport-Security" := "max-age=31536000; includeSubDomains"];
    if HasPrefix(path, "/docs/") {
      ctx.headers := ctx.headers["Content-Security-Policy" := RelaxedCsp];
    } else {
      ctx.headers := ctx.headers["Content-Security-Policy" := StrictCsp];
    }
  }

  /** The methods whose body must be JSON. */
  predicate CarriesBody(httpMethod: string)
  {
    httpMethod == "POST" || httpMethod == "PUT" || httpMethod == "PATCH"
  }

  /** The content-type gate: None lets the request through. */
  function ContentTypeCheck(httpMethod: string, contentType: string): (r: Option<Rejection>)
    ensures r.None? <==> !CarriesBody(httpMethod) || IndexOf(contentType, "application/json") >= 0
    ensures r.Some? ==> r.value == InvalidContentType
  {
    if CarriesBody(httpMethod) && IndexOf(contentType, "application/json") < 0 then Some(InvalidContentType) else None
  }

  /** A JSON media type followed by parameters passes the gate; a GET passes whatever its header. */
  lemma JsonMediaTypePasses(httpMethod: string, params: string, contentType: string)
    ensures ContentTypeCheck(httpMethod, "application/json" + params).None?
    ensures ContentTypeCheck("GET", contentType).None?
  {
    var s := "application/json" + params;
    assert OccursAt(s, "application/json", 0);
  }

  method ContentType(ctx: Context, httpMethod: string, contentType: string)
    modifies ctx
    ensures ctx.values == old(ctx.values) && ctx.headers == old(ctx.headers)
    ensures ctx.rejection == if ContentTypeCheck(httpMethod, contentType).Some? then ContentTypeCheck(httpMethod, contentType)
                             else old(ctx.rejection)
  {
    if httpMethod == "POST" || httpMethod == "PUT" || httpMethod == "PATCH" {
      if IndexOf(contentType, "application/json") < 0 {
        ctx.rejection := Some(InvalidContentType);
      }
    }
  }
}
