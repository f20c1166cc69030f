/**
 * The configuration checks run at start-up, the database connection string,
 * and the defaults applied before the configuration is read. Reading the
 * file and the environment is outside this model; a configuration here is
 * the value that reading produced.
 */
module Config {
  import opened Wrappers
  import opened Ids
  import opened Text
  import Jwt
  import Registry

  datatype DatabaseConfig = DatabaseConfig(host: string, port: int, user: string, password: string, name: string, sslMode: string)

  datatype AuthConfig = AuthConfig(
    signingMethod: string, accessSecret: string, refreshSecret: string, accessTtl: Duration, refreshTtl: Duration,
    hashMemory: int, hashTime: int, hashThreads: int)

  /** The client credentials of an external identity or music service. */
  datatype ClientConfig = ClientConfig(clientId: string, clientSecret: string)

  datatype Config = Config(
    database: DatabaseConfig, auth: AuthConfig, google: ClientConfig, spotify: ClientConfig, enabled: seq<string>)

  datatype ConfigError =
    | AccessSecretRequired
    | RefreshSecretRequired
    | DatabasePasswordRequired
    | GoogleClientIdRequired
    | SpotifyClientIdRequired
    | SpotifyClientSecretRequired

  function Message(e: ConfigError): string
  {
    match e
    case AccessSecretRequired => "JWT access secret is required"
    case RefreshSecretRequired => "JWT refresh secret is required"
    case DatabasePasswordRequired => "database password is required"
    case GoogleClientIdRequired => "Google client ID is required when Google provider is enabled"
    case SpotifyClientIdRequired => "Spotify client ID is required when Spotify provider is enabled"
    case SpotifyClientSecretRequired => "Spotify client secret is required when Spotify provider is enabled"
  }

  // ------------------------------------------------------------------ validation

  /**
   * `validate` as written: the secrets, then the database password, then
   * the client id of each enabled external provider.
   */
  function Validate(c: Config): (r: Option<ConfigError>)
    ensures r == None <==>
      c.auth.accessSecret != "" && c.auth.refreshSecret != "" && c.database.password != "" &&
      ("google" in c.enabled ==> c.google.clientId != "") && ("spotify" in c.enabled ==> c.spotify.clientId != "")
    ensures c.auth.accessSecret == "" ==> r == Some(AccessSecretRequired)
    ensures c.auth.accessSecret != "" && c.auth.refreshSecret == "" ==> r == Some(RefreshSecretRequired)
    ensures c.auth.accessSecret != "" && c.auth.refreshSecret != "" && c.database.password == "" ==>
      r == Some(DatabasePasswordRequired)
    ensures r == Some(GoogleClientIdRequired) ==> "google" in c.enabled && c.google.clientId == ""
    ensures r == Some(SpotifyClientIdRequired) ==> "spotify" in c.enabled && c.spotify.clientId == ""
    ensures c.auth.accessSecret != "" && c.auth.refreshSecret != "" && c.database.password != "" &&
            "google" in c.enabled && c.google.clientId == "" ==>
      r == Some(GoogleClientIdRequired)
    ensures c.auth.accessSecret != "" && c.auth.refreshSecret != "" && c.database.password != "" &&
            ("google" in c.enabled ==> c.google.clientId != "") && "spotify" in c.enabled && c.spotify.clientId == "" ==>
      r == Some(SpotifyClientIdRequired)
    ensures r != Some(SpotifyClientSecretRequired)
  {
    if c.auth.accessSecret == "" then Some(AccessSecretRequired)
    else if c.auth.refreshSecret == "" then Some(RefreshSecretRequired)
    else if c.database.password == "" then Some(DatabasePasswordRequired)
    else if "google" in c.enabled && c.google.clientId == "" then Some(GoogleClientIdRequired)
    else if "spotify" in c.enabled && c.spotify.clientId == "" then Some(SpotifyClientIdRequired)
    else None
  }

  /**
   * A configuration can pass validation with Spotify enabled and yet end
   * up without a Spotify provider: the secret is never checked, and the
   * music service skips Spotify when it is missing.
   */
  lemma ValidatedSpotifyMayBeMissing(c: Config)
    requires c.auth.accessSecret != "" && c.auth.refreshSecret != "" && c.database.password != ""
    requires c.enabled == ["spotify"] && c.spotify == ClientConfig("id", "")
    ensures Validate(c) == None
    ensures "spotify" !in Registry.Initialized(c.enabled, c.spotify.clientId, c.spotify.clientSecret)
  {
  }

  /** The corrected check: an enabled Spotify also needs its client secret. */
  function ValidateCorrected(c: Config): (r: Option<ConfigError>)
    ensures r == None <==> Validate(c) == None && ("spotify" in c.enabled ==> c.spotify.clientSecret != "")
    ensures Validate(c) != None ==> r == Validate(c)
    ensures r == Some(SpotifyClientSecretRequired) ==> "spotify" in c.enabled && c.spotify.clientSecret == ""
  {
    match Validate(c)
    case Some(e) => Some(e)
    case None => if "spotify" in c.enabled && c.spotify.clientSecret == "" then Some(SpotifyClientSecretRequired) else None
  }

  /** Under the corrected check, every enabled music provider the service knows ends up registered. */
  lemma ValidatedProvidersAreRegistered(c: Config, name: string)
    requires ValidateCorrected(c) == None
    requires name in c.enabled && (name == "itunes" || name == "spotify")
    ensures name in Registry.Initialized(c.enabled, c.spotify.clientId, c.spotify.clientSecret)
  {
  }

  // ------------------------------------------------------------------ connection string

  /**
   * `DSN`: the six settings as key=value pairs separated by single spaces,
   * in the order host, port, user, password, dbname, sslmode; values are
   * not quoted.
   */
  function Dsn(d: DatabaseConfig): string
  {
    Join(DsnPairs(d), " ")
  }

  /** The six pairs, in order. */
  function DsnPairs(d: DatabaseConfig): (r: seq<string>)
    ensures |r| == 6
  {
    ["host=" + d.host, "port=" + IntString(d.port), "user=" + d.user, "password=" + d.password,
     "dbname=" + d.name, "sslmode=" + d.sslMode]
  }

  lemma JoinCons(x: string, rest: seq<string>, sep: string)
    requires |rest| >= 1
    ensures Join([x] + rest, sep) == x + sep + Join(rest, sep)
  {
    assert ([x] + rest)[1..] == rest;
  }

  /** A separator inside one part reads, once joined, as a boundary between two parts. */
  lemma JoinSeparatorInside(k: string, x: string, y: string, sep: string, rest: seq<string>)
    requires |rest| >= 1
    ensures Join([k + x, y] + rest, sep) == Join([k + (x + sep + y)] + rest, sep)
  {
    JoinCons(y, rest, sep);
    assert [k + x, y] + rest == [k + x] + ([y] + rest);
    JoinCons(k + x, [y] + rest, sep);
    JoinCons(k + (x + sep + y), rest, sep);
    var j := Join(rest, sep);
    calc {
      (k + x) + sep + (y + sep + j);
      == { Regroup(k + x, sep, (y + sep) + j); Regroup(k, x, sep + ((y + sep) + j)); Regroup(y, sep, j); }
      k + (x + (sep + (y + (sep + j))));
      == { Regroup(x, sep, y); Regroup(x + sep, y, sep + j); Regroup(x, sep, y + (sep + j)); }
      k + (((x + sep) + y) + (sep + j));
      == { Regroup(k, (x + sep) + y, sep + j); Regroup(k + ((x + sep) + y), sep, j); }
      (k + (x + sep + y)) + sep + j;
    }
  }

  lemma Regroup(a: string, b: string, c: string)
    ensures (a + b) + c == a + (b + c)
  {
  }

  lemma IntStringHasNoSpace(n: int)
    ensures ' ' !in IntString(n)
  {
    var s := NatString(if n < 0 then -n else n);
    assert forall i :: 0 <= i < |s| ==> IsDigit(s[i]);
  }

  predicate NoBlank(s: string)
  {
    ' ' !in s
  }

  /** Splitting the string on spaces gives back the six pairs, when no value holds a space. */
  lemma DsnSplits(d: DatabaseConfig)
    requires NoBlank(d.host) && NoBlank(d.user) && NoBlank(d.password) && NoBlank(d.name) && NoBlank(d.sslMode)
    ensures Split(Dsn(d), ' ') == DsnPairs(d)
  {
    IntStringHasNoSpace(d.port);
    SplitJoin(DsnPairs(d), ' ');
  }

  /** Distinct settings without spaces give distinct connection strings. */
  lemma DsnInjective(a: DatabaseConfig, b: DatabaseConfig)
    requires NoBlank(a.host) && NoBlank(a.user) && NoBlank(a.password) && NoBlank(a.name) && NoBlank(a.sslMode)
    requires NoBlank(b.host) && NoBlank(b.user) && NoBlank(b.password) && NoBlank(b.name) && NoBlank(b.sslMode)
    requires Dsn(a) == Dsn(b)
    ensures a == b
  {
    DsnSplits(a);
    DsnSplits(b);
    var pa, pb := DsnPairs(a), DsnPairs(b);
    assert pa == pb;
    assert a.host == pa[0][5..] && b.host == pb[0][5..];
    assert IntString(a.port) == pa[1][5..] && IntString(b.port) == pb[1][5..];
    IntStringInjective(a.port, b.port);
    assert a.user == pa[2][5..] && b.user == pb[2][5..];
    assert a.password == pa[3][9..] && b.password == pb[3][9..];
    assert a.name == pa[4][7..] && b.name == pb[4][7..];
    assert a.sslMode == pa[5][8..] && b.sslMode == pb[5][8..];
  }

  /** The pairs of the connection string when the password is `x + " " + y`, read as separate fields. */
  function SpacedPairs(d: DatabaseConfig, x: string, y: string): seq<string>
  {
    ["host=" + d.host, "port=" + IntString(d.port), "user=" + d.user, "password=" + x, y,
     "dbname=" + d.name, "sslmode=" + d.sslMode]
  }

  lemma SpacedPasswordJoin(d: DatabaseConfig, x: string, y: string)
    requires d.password == x + " " + y
    ensures Dsn(d) == Join(SpacedPairs(d, x, y), " ")
  {
    var pre, post := DsnPairs(d)[..3], DsnPairs(d)[4..];
    assert DsnPairs(d) == pre + ["password=" + (x + " " + y)] + post;
    assert SpacedPairs(d, x, y) == pre + ["password=" + x, y] + post;
    JoinSeparatorWithin(pre, "password=", x, y, " ", post);
  }

  /** Splitting one entry at its separator leaves the joined string unchanged. */
  lemma {:induction false} JoinSeparatorWithin(pre: seq<string>, k: string, x: string, y: string, sep: string, post: seq<string>)
    requires |post| >= 1
    ensures Join(pre + [k + (x + sep + y)] + post, sep) == Join(pre + [k + x, y] + post, sep)
  {
    if pre == [] {
      assert pre + [k + (x + sep + y)] + post == [k + (x + sep + y)] + post;
      assert pre + [k + x, y] + post == [k + x, y] + post;
      JoinSeparatorInside(k, x, y, sep, post);
    } else {
      JoinSeparatorWithin(pre[1..], k, x, y, sep, post);
      var a, b := pre + [k + (x + sep + y)] + post, pre + [k + x, y] + post;
      assert a == [pre[0]] + (pre[1..] + [k + (x + sep + y)] + post);
      assert b == [pre[0]] + (pre[1..] + [k + x, y] + post);
      JoinCons(pre[0], pre[1..] + [k + (x + sep + y)] + post, sep);
      JoinCons(pre[0], pre[1..] + [k + x, y] + post, sep);
    }
  }

  /** Values are not quoted: a password holding a space comes apart into two fields. */
  lemma SpacedPasswordSplits(d: DatabaseConfig, x: string, y: string)
    requires NoBlank(d.host) && NoBlank(d.user) && NoBlank(d.name) && NoBlank(d.sslMode) && NoBlank(x) && NoBlank(y)
    requires d.password == x + " " + y
    ensures |Split(Dsn(d), ' ')| == 7
    ensures Split(Dsn(d), ' ')[3] == "password=" + x && Split(Dsn(d), ' ')[4] == y
  {
    SpacedPasswordJoin(d, x, y);
    IntStringHasNoSpace(d.port);
    SplitJoin(SpacedPairs(d, x, y), ' ');
  }

  // ------------------------------------------------------------------ defaults

  /** The authentication defaults; the two secrets have none. */
  const AuthDefaults := AuthConfig("HS256", "", "", 15 * 60, 720 * 60 * 60, 65536, 3, 2)

  const DatabaseDefaults := DatabaseConfig("localhost", 5432, "postgres", "", "music_app", "disable")

  const EnabledDefault := ["itunes"]

  /**
   * The defaults sign with HMAC-SHA256, keep access tokens 15 minutes and
   * refresh tokens 30 days, and hash passwords with 64 MiB, 3 passes and 2
   * lanes; on their own they never validate, since the secrets and the
   * database password have no default.
   */
  lemma DefaultsMeaning(google: ClientConfig, spotify: ClientConfig)
    ensures Jwt.SigningMethodFor(AuthDefaults.signingMethod) == Jwt.HS256
    ensures AuthDefaults.accessTtl == 900 && AuthDefaults.refreshTtl == 30 * 24 * 3600
    ensures AuthDefaults.hashMemory == 64 * 1024 && AuthDefaults.hashTime == 3 && AuthDefaults.hashThreads == 2
    ensures Validate(Config(DatabaseDefaults, AuthDefaults, google, spotify, EnabledDefault)) == Some(AccessSecretRequired)
    ensures Registry.Initialized(EnabledDefault, spotify.clientId, spotify.clientSecret).Keys == {"itunes"}
  {
  }
}
