/**
 * The checks `GoogleService.VerifyIDToken` makes after Google's own library
 * has validated the ID token's signature and audience: the issuer, the
 * `email_verified` claim, and the mapping of claims onto a `GoogleUser`.
 */
module Google {
  import opened Wrappers

  /** A claim value as decoded from the token's JSON payload. */
  datatype ClaimValue = Str(s: string) | Bool(b: bool) | Number(n: int) | Null

  /** What `idtoken.Validate` hands back on success. */
  datatype Payload = Payload(issuer: string, subject: string, claims: map<string, ClaimValue>)

  datatype GoogleUser = GoogleUser(
    id: string, email: string, verifiedEmail: bool, name: string,
    givenName: string, familyName: string, picture: string, locale: string)

  datatype GoogleError = TokenRejected | InvalidIssuer(issuer: string) | EmailNotVerified

  const Issuers: set<string> := {"accounts.google.com", "https://accounts.google.com"}

  /** A string-typed claim, or "" when it is missing or of another type. */
  function StringClaim(claims: map<string, ClaimValue>, key: string): (r: string)
    ensures r != [] ==> key in claims && claims[key] == Str(r)
    ensures key in claims && claims[key].Str? ==> r == claims[key].s
  {
    if key in claims && claims[key].Str? then claims[key].s else ""
  }

  /** A boolean-typed claim, or false when it is missing or of another type. */
  function BoolClaim(claims: map<string, ClaimValue>, key: string): (r: bool)
    ensures r <==> key in claims && claims[key] == Bool(true)
  {
    key in claims && claims[key].Bool? && claims[key].b
  }

  /**
   * `validated` is the outcome of the library validation (None when it
   * failed). The issuer is checked first, then `email_verified`.
   */
  function VerifyIdToken(validated: Option<Payload>): (r: Result<GoogleUser, GoogleError>)
    ensures validated.None? ==> r == Err(TokenRejected)
    ensures validated.Some? && validated.value.issuer !in Issuers ==> r == Err(InvalidIssuer(validated.value.issuer))
    ensures r.Ok? <==> validated.Some? && validated.value.issuer in Issuers && BoolClaim(validated.value.claims, "email_verified")
    ensures r.Ok? ==> r.value.id == validated.value.subject && r.value.verifiedEmail
    ensures r.Ok? ==>
      var c := validated.value.claims;
      r.value.email == StringClaim(c, "email") && r.value.name == StringClaim(c, "name") &&
      r.value.givenName == StringClaim(c, "given_name") && r.value.familyName == StringClaim(c, "family_name") &&
      r.value.picture == StringClaim(c, "picture") && r.value.locale == StringClaim(c, "locale")
  {
    match validated
    case None => Err(TokenRejected)
    case Some(p) =>
      if p.issuer != "accounts.google.com" && p.issuer != "https://accounts.google.com" then Err(InvalidIssuer(p.issuer))
      else
        var c := p.claims;
        var emailVerified := BoolClaim(c, "email_verified");
        if !emailVerified then Err(EmailNotVerified)
        else Ok(GoogleUser(
          id := p.subject,
          email := StringClaim(c, "email"),
          verifiedEmail := emailVerified,
          name := StringClaim(c, "name"),
          givenName := StringClaim(c, "given_name"),
          familyName := StringClaim(c, "family_name"),
          picture := StringClaim(c, "picture"),
          locale := StringClaim(c, "locale")))
  }

  /** Whether the claim is present and a string. */
  predicate HasString(claims: map<string, ClaimValue>, key: string)
  {
    key in claims && claims[key].Str?
  }

  /**
   * The profile claims never cause a rejection: a verified token from a
   * trusted issuer is accepted whatever its other claims hold, each profile
   * field is its claim when that is a string, and a claim that is missing
   * or of another type becomes "".
   */
  lemma MissingClaimsBecomeEmpty(issuer: string, subject: string, claims: map<string, ClaimValue>)
    requires issuer in Issuers && BoolClaim(claims, "email_verified")
    ensures VerifyIdToken(Some(Payload(issuer, subject, claims))).Ok?
    ensures var u := VerifyIdToken(Some(Payload(issuer, subject, claims))).value;
      (HasString(claims, "email") ==> u.email == claims["email"].s) &&
      (!HasString(claims, "email") ==> u.email == "") &&
      (HasString(claims, "name") ==> u.name == claims["name"].s) &&
      (!HasString(claims, "name") ==> u.name == "") &&
      (HasString(claims, "given_name") ==> u.givenName == claims["given_name"].s) &&
      (!HasString(claims, "given_name") ==> u.givenName == "") &&
      (HasString(claims, "family_name") ==> u.familyName == claims["family_name"].s) &&
      (!HasString(claims, "family_name") ==> u.familyName == "") &&
      (HasString(claims, "picture") ==> u.picture == claims["picture"].s) &&
      (!HasString(claims, "picture") ==> u.picture == "") &&
      (HasString(claims, "locale") ==> u.locale == claims["locale"].s) &&
      (!HasString(claims, "locale") ==> u.locale == "")
  {
  }

  /** A claim `email_verified` that is absent, false or not a boolean rejects the token. */
  lemma UnverifiedEmailRejected(issuer: string, subject: string, claims: map<string, ClaimValue>)
    requires issuer in Issuers
    requires "email_verified" !in claims || claims["email_verified"] != Bool(true)
    ensures VerifyIdToken(Some(Payload(issuer, subject, claims))) == Err(EmailNotVerified)
  {
  }
}
