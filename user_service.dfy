/**
 * Accounts: the `users` table (unique primary key, unique email, unique
 * Google id) and the user service that registers, provisions,
 * authenticates and updates users on top of it.
 */
module Users {
  import opened Wrappers
  import opened Ids
  import opened Storage
  import opened PasswordHash

  /** A preference value, kept as the JSON text it was supplied as. */
  type JsonText = string
  type Prefs = map<string, JsonText>

  /** The `preferences` column: NULL, a JSON object, or bytes that do not decode into one. */
  datatype StoredPrefs = NoPrefs | Object(entries: Prefs) | Unparsable

  datatype User = User(
    id: Uuid,
    email: Option<string>,
    password: Option<string>,
    displayName: Option<string>,
    photoUrl: Option<string>,
    roles: seq<string>,
    isActive: bool,
    googleId: Option<string>,
    lastLoginAt: Option<Time>,
    preferences: StoredPrefs,
    favoriteGenres: seq<string>)

  datatype UserError =
    | EmailExists
    | UserNotFound
    | AuthenticationFailed
    | InvalidUserId
    | PreferencesUnparsable
    | Db(cause: DbError)
    | Hashing(failure: HashError)

  /** A user as both services create one: role "user", active, no login yet. */
  function NewUser(id: Uuid, email: Option<string>, password: Option<string>, displayName: Option<string>,
                   photoUrl: Option<string>, googleId: Option<string>): (u: User)
    ensures u.id == id && u.email == email && u.password == password && u.googleId == googleId
    ensures u.roles == ["user"] && u.isActive && u.lastLoginAt.None?
  {
    User(id, email, password, displayName, photoUrl, ["user"], true, googleId, None, NoPrefs, [])
  }

  // ------------------------------------------------------------------ the table

  /** The index of the first user satisfying `p`, or -1. */
  function FirstWhere(users: seq<User>, p: User -> bool): (k: int)
    ensures -1 <= k < |users|
    ensures k >= 0 ==> p(users[k]) && forall i :: 0 <= i < k ==> !p(users[i])
    ensures k < 0 ==> forall i :: 0 <= i < |users| ==> !p(users[i])
  {
    if |users| == 0 then -1
    else if p(users[0]) then 0
    else
      var k := FirstWhere(users[1..], p);
      if k < 0 then -1 else k + 1
  }

  function HasEmail(email: string): User -> bool { (u: User) => u.email == Some(email) }
  function HasGoogleId(googleId: string): User -> bool { (u: User) => u.googleId == Some(googleId) }
  function HasId(id: Uuid): User -> bool { (u: User) => u.id == id }

  /** Two rows that the primary key or one of the unique indexes would not let coexist (NULLs never collide). */
  predicate SameKey(a: User, b: User)
  {
    a.id == b.id || (a.email.Some? && a.email == b.email) || (a.googleId.Some? && a.googleId == b.googleId)
  }

  ghost predicate Unique(users: seq<User>)
  {
    forall i, j :: 0 <= i < j < |users| ==> !SameKey(users[i], users[j])
  }

  /** Whether `u` collides with a row other than the one at `skip`. */
  predicate Clashes(users: seq<User>, u: User, skip: int)
  {
    exists i :: 0 <= i < |users| && i != skip && SameKey(users[i], u)
  }

  /** `First` under a where-clause; `fails` stands for any database failure. */
  function Lookup(users: seq<User>, p: User -> bool, fails: bool): (r: Result<User, DbError>)
    ensures fails ==> r == Err(Unavailable)
    ensures !fails ==> (r.Ok? <==> FirstWhere(users, p) >= 0)
    ensures !fails && r.Ok? ==> r.value == users[FirstWhere(users, p)] && p(r.value)
    ensures !fails && r.Err? ==> r.error == RecordNotFound
  {
    if fails then Err(Unavailable)
    else
      var k := FirstWhere(users, p);
      if k < 0 then Err(RecordNotFound) else Ok(users[k])
  }

  /** `Create`: appends the row unless a key collides. */
  function Inserted(users: seq<User>, u: User, fails: bool): (o: (Option<DbError>, seq<User>))
    ensures fails ==> o.0 == Some(Unavailable)
    ensures !fails ==> (o.0.None? <==> !Clashes(users, u, -1))
    ensures o.0.Some? ==> o.1 == users
    ensures o.0.None? ==> o.1 == users + [u]
    ensures Unique(users) ==> Unique(o.1)
  {
    if fails then (Some(Unavailable), users)
    else if Clashes(users, u, -1) then (Some(DuplicateKey), users)
    else (None, users + [u])
  }

  /** `Save`: replaces the row with the same primary key, or appends one, unless a unique index collides. */
  function Saved(users: seq<User>, u: User, fails: bool): (o: (Option<DbError>, seq<User>))
    ensures fails ==> o.0 == Some(Unavailable)
    ensures !fails ==> (o.0.None? <==> !Clashes(users, u, FirstWhere(users, HasId(u.id))))
    ensures o.0.Some? ==> o.1 == users
    ensures o.0.None? ==>
      var k := FirstWhere(users, HasId(u.id));
      o.1 == if k >= 0 then users[k := u] else users + [u]
    ensures Unique(users) ==> Unique(o.1)
  {
    if fails then (Some(Unavailable), users)
    else
      var k := FirstWhere(users, HasId(u.id));
      if Clashes(users, u, k) then (Some(DuplicateKey), users)
      else if k >= 0 then (None, users[k := u])
      else (None, users + [u])
  }

  /** The rows that `u` can replace in place: its own, when its keys are otherwise unchanged. */
  lemma SaveInPlace(users: seq<User>, k: int, u: User)
    requires Unique(users) && 0 <= k < |users|
    requires u.id == users[k].id && u.email == users[k].email && u.googleId == users[k].googleId
    ensures FirstWhere(users, HasId(u.id)) == k
    ensures !Clashes(users, u, k)
  {
    var j := FirstWhere(users, HasId(u.id));
    if j != k {
      assert SameKey(users[j], users[k]);
    }
  }

  /** `SaveInPlace` for a table that may not be unique: only a unique one is promised anything. */
  lemma SaveInPlaceWhenUnique(users: seq<User>, k: int, u: User)
    requires 0 <= k < |users|
    requires u.id == users[k].id && u.email == users[k].email && u.googleId == users[k].googleId
    ensures Unique(users) ==> FirstWhere(users, HasId(u.id)) == k && !Clashes(users, u, k)
  {
    if Unique(users) {
      SaveInPlace(users, k, u);
    }
  }

  // ------------------------------------------------------------------ service outcomes

  /** `CreateUser`: refuse a taken email, hash the password, insert the account. */
  function Register(users: seq<User>, email: string, password: string, displayName: string,
                    hasher: PasswordHasher, kdf: Kdf, salt: Option<Salt>, freshId: Uuid,
                    lookupFails: bool, createFails: bool): (o: (Result<User, UserError>, seq<User>))
    ensures o.0.Err? ==> o.1 == users
    ensures lookupFails ==> o.0 == Err(Db(Unavailable))
    ensures !lookupFails && FirstWhere(users, HasEmail(email)) >= 0 ==> o.0 == Err(EmailExists)
    ensures o.0.Ok? ==>
      var u := o.0.value;
      FirstWhere(users, HasEmail(email)) < 0 && o.1 == users + [u] &&
      u.id == freshId && u.email == Some(email) && u.displayName == Some(displayName) &&
      u.roles == ["user"] && u.isActive && u.googleId.None? &&
      u.password.Some? && hasher.Hash(kdf, password, salt) == Ok(u.password.value)
    ensures !lookupFails && FirstWhere(users, HasEmail(email)) < 0 && hasher.Hash(kdf, password, salt).Err? ==>
      o.0 == Err(Hashing(hasher.Hash(kdf, password, salt).error))
    ensures !lookupFails && FirstWhere(users, HasEmail(email)) < 0 && hasher.Hash(kdf, password, salt).Ok? && createFails ==>
      o.0 == Err(Db(Unavailable))
    ensures o.0.Ok? <==>
      !lookupFails && FirstWhere(users, HasEmail(email)) < 0 && hasher.Hash(kdf, password, salt).Ok? && !createFails &&
      !Clashes(users, NewUser(freshId, Some(email), Some(hasher.Hash(kdf, password, salt).value), Some(displayName), None, None), -1)
    ensures Unique(users) ==> Unique(o.1)
  {
    var found := Lookup(users, HasEmail(email), lookupFails);
    if found.Ok? then (Err(EmailExists), users)
    else if found.error != RecordNotFound then (Err(Db(found.error)), users)
    else
      match hasher.Hash(kdf, password, salt)
      case Err(e) => (Err(Hashing(e)), users)
      case Ok(hashed) =>
        var u := NewUser(freshId, Some(email), Some(hashed), Some(displayName), None, None);
        var (err, after) := Inserted(users, u, createFails);
        if err.Some? then (Err(Db(err.value)), users) else (Ok(u), after)
  }

  /** `CreateGoogleUser`: the account with that Google id, logged in now, or a new one. */
  function ProvisionGoogle(users: seq<User>, googleId: string, email: string, displayName: string, photoUrl: string,
                           now: Time, freshId: Uuid, lookupFails: bool, writeFails: bool): (o: (Result<User, UserError>, seq<User>))
    ensures o.0.Err? ==> o.1 == users
    ensures lookupFails ==> o.0 == Err(Db(Unavailable))
    ensures o.0.Ok? && FirstWhere(users, HasGoogleId(googleId)) >= 0 ==>
      o.0.value == users[FirstWhere(users, HasGoogleId(googleId))].(lastLoginAt := Some(now))
    ensures o.0.Ok? && FirstWhere(users, HasGoogleId(googleId)) < 0 ==>
      var u := o.0.value;
      o.1 == users + [u] && u.id == freshId && u.googleId == Some(googleId) && u.email == Some(email) &&
      u.password.None? && u.roles == ["user"] && u.isActive
    ensures o.0.Ok? && FirstWhere(users, HasGoogleId(googleId)) >= 0 ==> o.1 == Saved(users, o.0.value, writeFails).1
    ensures !lookupFails && writeFails ==> o.0 == Err(Db(Unavailable))
    ensures !lookupFails && FirstWhere(users, HasGoogleId(googleId)) < 0 ==>
      (o.0.Ok? <==> !writeFails && !Clashes(users, NewUser(freshId, Some(email), None, Some(displayName), Some(photoUrl), Some(googleId)), -1))
    ensures !lookupFails && FirstWhere(users, HasGoogleId(googleId)) >= 0 ==>
      var known := users[FirstWhere(users, HasGoogleId(googleId))].(lastLoginAt := Some(now));
      (o.0.Ok? <==> !writeFails && !Clashes(users, known, FirstWhere(users, HasId(known.id))))
    ensures Unique(users) && !lookupFails && !writeFails && FirstWhere(users, HasGoogleId(googleId)) >= 0 ==> o.0.Ok?
    ensures Unique(users) ==> Unique(o.1)
  {
    var found := Lookup(users, HasGoogleId(googleId), lookupFails);
    if found.Ok? then
      var u := found.value.(lastLoginAt := Some(now));
      SaveInPlaceWhenUnique(users, FirstWhere(users, HasGoogleId(googleId)), u);
      var (err, after) := Saved(users, u, writeFails);
      (if err.Some? then Err(Db(err.value)) else Ok(u), after)
    else if found.error != RecordNotFound then (Err(Db(found.error)), users)
    else
      var u := NewUser(freshId, Some(email), None, Some(displayName), Some(photoUrl), Some(googleId));
      var (err, after) := Inserted(users, u, writeFails);
      if err.Some? then (Err(Db(err.value)), users) else (Ok(u), after)
  }

  /**
   * `AuthenticateUser`: one answer for an unknown email, a missing hash, an
   * unreadable hash and a wrong password. The last-login write may fail
   * without failing the login; `IsActive` is not consulted. A stored hash
   * that makes the hasher panic is passed on as that panic.
   */
  function Authenticate(users: seq<User>, email: string, password: string, hasher: PasswordHasher, kdf: Kdf,
                        now: Time, lookupFails: bool, saveFails: bool): (o: (Result<User, UserError>, seq<User>))
    ensures var k := FirstWhere(users, HasEmail(email));
      o.0.Ok? <==> !lookupFails && k >= 0 && users[k].password.Some? &&
                   hasher.Matches(kdf, password, users[k].password.value) == Ok(true)
    ensures var k := FirstWhere(users, HasEmail(email));
      (o.0 == Err(Hashing(ParameterPanic))) <==>
        (!lookupFails && k >= 0 && users[k].password.Some? &&
         hasher.Matches(kdf, password, users[k].password.value) == Err(ParameterPanic))
    ensures o.0.Ok? ==> o.0.value == users[FirstWhere(users, HasEmail(email))].(lastLoginAt := Some(now))
    ensures o.0.Ok? ==> o.1 == Saved(users, o.0.value, saveFails).1
    ensures o.0.Err? ==> o.1 == users && o.0.error in {AuthenticationFailed, Db(Unavailable), Hashing(ParameterPanic)}
    ensures o.0.Err? && !lookupFails && o.0.error != Hashing(ParameterPanic) ==> o.0 == Err(AuthenticationFailed)
    ensures Unique(users) ==> Unique(o.1)
  {
    var found := Lookup(users, HasEmail(email), lookupFails);
    if found.Err? then
      (if found.error == RecordNotFound then Err(AuthenticationFailed) else Err(Db(found.error)), users)
    else
      var u := found.value;
      if u.password.None? then (Err(AuthenticationFailed), users)
      else
        var matched := hasher.Matches(kdf, password, u.password.value);
        if matched == Err(ParameterPanic) then (Err(Hashing(ParameterPanic)), users)
        else if matched != Ok(true) then (Err(AuthenticationFailed), users)
        else
          var logged := u.(lastLoginAt := Some(now));
          (Ok(logged), Saved(users, logged, saveFails).1)
  }

  /** `GetUserByID`: the id must parse as a UUID and name a stored user. */
  function FindById(users: seq<User>, userId: string, lookupFails: bool): (r: Result<User, UserError>)
    ensures ParseUuid(userId).None? ==> r == Err(InvalidUserId)
    ensures r.Ok? <==> ParseUuid(userId).Some? && !lookupFails && FirstWhere(users, HasId(ParseUuid(userId).value)) >= 0
    ensures r.Ok? ==> r.value == users[FirstWhere(users, HasId(ParseUuid(userId).value))]
    ensures ParseUuid(userId).Some? && !lookupFails && r.Err? ==> r == Err(UserNotFound)
  {
    match ParseUuid(userId)
    case None => Err(InvalidUserId)
    case Some(id) =>
      match Lookup(users, HasId(id), lookupFails)
      case Ok(u) => Ok(u)
      case Err(e) => if e == RecordNotFound then Err(UserNotFound) else Err(Db(e))
  }

  /** The decoded preferences a merge starts from, or None when they cannot be decoded. */
  function CurrentPrefs(p: StoredPrefs): (r: Option<Prefs>)
    ensures r.None? <==> p.Unparsable?
  {
    match p
    case NoPrefs => Some(map[])
    case Object(m) => Some(m)
    case Unparsable => None
  }

  /** The user with the supplied profile fields applied; preferences are merged separately. */
  function Patched(u: User, displayName: Option<string>, photoUrl: Option<string>): (p: User)
    ensures p.displayName == (if displayName.Some? then displayName else u.displayName)
    ensures p.photoUrl == (if photoUrl.Some? then photoUrl else u.photoUrl)
    ensures p.(displayName := u.displayName, photoUrl := u.photoUrl) == u
  {
    u.(displayName := if displayName.Some? then displayName else u.displayName,
       photoUrl := if photoUrl.Some? then photoUrl else u.photoUrl)
  }

  /**
   * The account `UpdateUser` writes: the supplied profile fields applied and
   * the supplied preferences merged over the stored ones; None when stored
   * preferences that have to be merged do not decode.
   */
  function Applied(before: User, displayName: Option<string>, photoUrl: Option<string>, prefs: Option<Prefs>): (r: Option<User>)
    ensures r.None? <==> prefs.Some? && CurrentPrefs(before.preferences).None?
    ensures r.Some? ==>
      var u := r.value;
      u.displayName == (if displayName.Some? then displayName else before.displayName) &&
      u.photoUrl == (if photoUrl.Some? then photoUrl else before.photoUrl) &&
      u.(displayName := before.displayName, photoUrl := before.photoUrl, preferences := before.preferences) == before &&
      (prefs.None? ==> u.preferences == before.preferences) &&
      (prefs.Some? ==>
         u.preferences.Object? &&
         u.preferences.entries.Keys == CurrentPrefs(before.preferences).value.Keys + prefs.value.Keys &&
         (forall key :: key in prefs.value ==> u.preferences.entries[key] == prefs.value[key]) &&
         (forall key :: key in CurrentPrefs(before.preferences).value && key !in prefs.value ==>
            u.preferences.entries[key] == CurrentPrefs(before.preferences).value[key]))
  {
    var patched := Patched(before, displayName, photoUrl);
    if prefs.None? then Some(patched)
    else
      match CurrentPrefs(before.preferences)
      case None => None
      case Some(current) => Some(patched.(preferences := Object(current + prefs.value)))
  }

  /** `UpdateUser`: a partial update; supplied preference keys override, the others are kept. */
  function UpdateProfile(users: seq<User>, userId: string, displayName: Option<string>, photoUrl: Option<string>,
                         prefs: Option<Prefs>, lookupFails: bool, saveFails: bool): (o: (Result<User, UserError>, seq<User>))
    ensures o.0.Err? ==> o.1 == users
    ensures FindById(users, userId, lookupFails).Err? ==> o.0 == Err(FindById(users, userId, lookupFails).error)
    ensures o.0.Ok? ==>
      var before := FindById(users, userId, lookupFails).value;
      var u := o.0.value;
      FindById(users, userId, lookupFails).Ok? &&
      u.displayName == (if displayName.Some? then displayName else before.displayName) &&
      u.photoUrl == (if photoUrl.Some? then photoUrl else before.photoUrl) &&
      u.(displayName := before.displayName, photoUrl := before.photoUrl, preferences := before.preferences) == before &&
      (prefs.None? ==> u.preferences == before.preferences) &&
      (prefs.Some? ==>
         CurrentPrefs(before.preferences).Some? && u.preferences.Object? &&
         u.preferences.entries.Keys == CurrentPrefs(before.preferences).value.Keys + prefs.value.Keys &&
         (forall key :: key in prefs.value ==> u.preferences.entries[key] == prefs.value[key]) &&
         (forall key :: key in CurrentPrefs(before.preferences).value && key !in prefs.value ==>
            u.preferences.entries[key] == CurrentPrefs(before.preferences).value[key]))
    ensures o.0.Ok? ==> o.1 == Saved(users, o.0.value, saveFails).1
    ensures FindById(users, userId, lookupFails).Ok? && prefs.Some? &&
            CurrentPrefs(FindById(users, userId, lookupFails).value.preferences).None? ==>
      o.0 == Err(PreferencesUnparsable)
    ensures FindById(users, userId, lookupFails).Ok? && saveFails &&
            (prefs.None? || CurrentPrefs(FindById(users, userId, lookupFails).value.preferences).Some?) ==>
      o.0 == Err(Db(Unavailable))
    ensures Unique(users) && FindById(users, userId, lookupFails).Ok? && !saveFails &&
            (prefs.None? || CurrentPrefs(FindById(users, userId, lookupFails).value.preferences).Some?) ==>
      o.0.Ok?
    ensures Unique(users) ==> Unique(o.1)
  {
    match FindById(users, userId, lookupFails)
    case Err(e) => (Err(e), users)
    case Ok(before) =>
      match Applied(before, displayName, photoUrl, prefs)
      case None => (Err(PreferencesUnparsable), users)
      case Some(u) =>
        SaveInPlaceWhenUnique(users, FirstWhere(users, HasId(before.id)), u);
        Persist(users, u, saveFails)
  }

  /** The final `UpdateUser` write. */
  function Persist(users: seq<User>, u: User, saveFails: bool): (o: (Result<User, UserError>, seq<User>))
    ensures o.0.Err? ==> o.1 == users
    ensures o.0.Ok? ==> o.0.value == u
    ensures Unique(users) ==> Unique(o.1)
  {
    var (err, after) := Saved(users, u, saveFails);
    if err.Some? then (Err(Db(err.value)), users) else (Ok(u), after)
  }

  // ------------------------------------------------------------------ lemmas

  /** A known Google account is returned with its login time set, and no account is added. */
  lemma KnownGoogleUserLogsIn(users: seq<User>, googleId: string, email: string, displayName: string, photoUrl: string,
                              now: Time, freshId: Uuid)
    requires Unique(users)
    requires FirstWhere(users, HasGoogleId(googleId)) >= 0
    ensures var k := FirstWhere(users, HasGoogleId(googleId));
      var o := ProvisionGoogle(users, googleId, email, displayName, photoUrl, now, freshId, false, false);
      o.0 == Ok(users[k].(lastLoginAt := Some(now))) && o.1 == users[k := o.0.value]
  {
    var k := FirstWhere(users, HasGoogleId(googleId));
    SaveInPlace(users, k, users[k].(lastLoginAt := Some(now)));
  }

  /**
   * A freshly registered account can log in with its password, through any
   * hasher configuration, and with a password whose derived key differs it
   * cannot.
   */
  lemma RegisteredUserAuthenticates(users: seq<User>, email: string, password: string, displayName: string,
                                    hasher: PasswordHasher, kdf: Kdf, salt: Option<Salt>, freshId: Uuid, createFails: bool,
                                    verifier: PasswordHasher, attempt: string, now: Time, saveFails: bool)
    requires Register(users, email, password, displayName, hasher, kdf, salt, freshId, false, createFails).0.Ok?
    ensures var after := Register(users, email, password, displayName, hasher, kdf, salt, freshId, false, createFails).1;
      Authenticate(after, email, password, verifier, kdf, now, false, saveFails).0.Ok? &&
      (kdf(attempt, salt.value, hasher.time, hasher.memory, hasher.threads, hasher.keyLen) !=
       kdf(password, salt.value, hasher.time, hasher.memory, hasher.threads, hasher.keyLen) ==>
         Authenticate(after, email, attempt, verifier, kdf, now, false, saveFails).0 == Err(AuthenticationFailed))
  {
    var o := Register(users, email, password, displayName, hasher, kdf, salt, freshId, false, createFails);
    var u := o.0.value;
    var after := o.1;
    assert after == users + [u];
    assert FirstWhere(after, HasEmail(email)) == |users| by {
      assert HasEmail(email)(after[|users|]);
      assert forall i :: 0 <= i < |users| ==> after[i] == users[i];
    }
    HashThenMatches(hasher, verifier, kdf, password, salt.value, attempt);
  }

  /**
   * An account whose password cannot be derived from the attempt is refused,
   * like an unknown email; only a stored hash that makes the hasher panic
   * answers differently.
   */
  lemma UnknownEmailAndWrongPasswordAlike(users: seq<User>, email: string, password: string, hasher: PasswordHasher, kdf: Kdf,
                                          now: Time, saveFails: bool)
    requires FirstWhere(users, HasEmail(email)) < 0 ||
             users[FirstWhere(users, HasEmail(email))].password.None? ||
             hasher.Matches(kdf, password, users[FirstWhere(users, HasEmail(email))].password.value) !in {Ok(true), Err(ParameterPanic)}
    ensures Authenticate(users, email, password, hasher, kdf, now, false, saveFails) == (Err(AuthenticationFailed), users)
  {
    var o := Authenticate(users, email, password, hasher, kdf, now, false, saveFails);
    assert o.0.Err? && o.0 != Err(Hashing(ParameterPanic));
  }

  /** Logging in never looks at `isActive`: deactivating an account does not change the outcome. */
  lemma InactiveAccountsLogIn(users: seq<User>, k: int, email: string, password: string, hasher: PasswordHasher, kdf: Kdf, now: Time)
    requires 0 <= k < |users|
    ensures var deactivated := users[k := users[k].(isActive := false)];
      Authenticate(deactivated, email, password, hasher, kdf, now, false, false).0.Ok? ==
      Authenticate(users, email, password, hasher, kdf, now, false, false).0.Ok?
  {
    var deactivated := users[k := users[k].(isActive := false)];
    FirstWhereIgnoresActivity(users, k, email);
  }

  lemma {:induction false} FirstWhereIgnoresActivity(users: seq<User>, k: int, email: string)
    requires 0 <= k < |users|
    ensures var d := users[k := users[k].(isActive := false)];
      FirstWhere(d, HasEmail(email)) == FirstWhere(users, HasEmail(email)) &&
      (FirstWhere(users, HasEmail(email)) >= 0 ==>
        d[FirstWhere(users, HasEmail(email))].password == users[FirstWhere(users, HasEmail(email))].password)
    decreases |users|
  {
    var d := users[k := users[k].(isActive := false)];
    if k > 0 && !HasEmail(email)(users[0]) {
      FirstWhereIgnoresActivity(users[1..], k - 1, email);
      assert d[1..] == users[1..][k - 1 := users[1..][k - 1].(isActive := false)];
    }
  }

  // ------------------------------------------------------------------ imperative shell

  /** The `users` table. */
  class UserRepository {
    var users: seq<User>

    ghost predicate Valid()
      reads this
    {
      Unique(users)
    }

    constructor ()
      ensures Valid() && users == []
    {
      users := [];
    }

    method Create(u: User, fails: bool) returns (err: Option<DbError>)
      requires Valid()
      modifies this
      ensures Valid()
      ensures (err, users) == Inserted(old(users), u, fails)
    {
      var o := Inserted(users, u, fails);
      err, users := o.0, o.1;
    }

    method Save(u: User, fails: bool) returns (err: Option<DbError>)
      requires Valid()
      modifies this
      ensures Valid()
      ensures (err, users) == Saved(old(users), u, fails)
    {
      var o := Saved(users, u, fails);
      err, users := o.0, o.1;
    }
  }

  /** Merges supplied preferences into the current ones, key by key. */
  method MergePreferences(current: Prefs, supplied: Prefs) returns (merged: Prefs)
    ensures merged.Keys == current.Keys + supplied.Keys
    ensures forall key :: key in supplied ==> merged[key] == supplied[key]
    ensures forall key :: key in current && key !in supplied ==> merged[key] == current[key]
  {
    merged := current;
    var pending := supplied.Keys;
    while pending != {}
      invariant pending <= supplied.Keys
      invariant merged.Keys == current.Keys + (supplied.Keys - pending)
      invariant forall key :: key in supplied && key !in pending ==> merged[key] == supplied[key]
      invariant forall key :: key in current && key !in supplied ==> merged[key] == current[key]
      decreases pending
    {
      var key :| key in pending;
      merged := merged[key := supplied[key]];
      pending := pending - {key};
    }
  }

  /** The field updates and the preference merge of `UpdateUser`, on the fetched account. */
  method ApplyUpdate(before: User, displayName: Option<string>, photoUrl: Option<string>, prefs: Option<Prefs>)
    returns (r: Option<User>)
    ensures r == Applied(before, displayName, photoUrl, prefs)
  {
    var u := before;
    if displayName.Some? {
      u := u.(displayName := displayName);
    }
    if photoUrl.Some? {
      u := u.(photoUrl := photoUrl);
    }
    assert u == Patched(before, displayName, photoUrl);
    if prefs.Some? {
      var current: Prefs := map[];
      if u.preferences.Unparsable? {
        return None;
      } else if u.preferences.Object? {
        current := u.preferences.entries;
      }
      assert CurrentPrefs(before.preferences) == Some(current);
      var merged := MergePreferences(current, prefs.value);
      assert merged == current + prefs.value;
      u := u.(preferences := Object(merged));
    }
    return Some(u);
  }

  class UserService {
    const repo: UserRepository
    const hasher: PasswordHasher
    const kdf: Kdf

    constructor (repo: UserRepository, hasher: PasswordHasher, kdf: Kdf)
      ensures this.repo == repo && this.hasher == hasher && this.kdf == kdf
    {
      this.repo := repo;
      this.hasher := hasher;
      this.kdf := kdf;
    }

    method CreateUser(email: string, password: string, displayName: string, salt: Option<Salt>, freshId: Uuid,
                      lookupFails: bool, createFails: bool) returns (r: Result<User, UserError>)
      requires repo.Valid()
      modifies repo
      ensures repo.Valid()
      ensures (r, repo.users) == Register(old(repo.users), email, password, displayName, hasher, kdf, salt, freshId, lookupFails, createFails)
    {
      var found := Lookup(repo.users, HasEmail(email), lookupFails);
      if found.Ok? {
        return Err(EmailExists);
      }
      if found.error != RecordNotFound {
        return Err(Db(found.error));
      }
      var hashed := hasher.Hash(kdf, password, salt);
      if hashed.Err? {
        return Err(Hashing(hashed.error));
      }
      var u := NewUser(freshId, Some(email), Some(hashed.value), Some(displayName), None, None);
      var err := repo.Create(u, createFails);
      if err.Some? {
        return Err(Db(err.value));
      }
      return Ok(u);
    }

    method CreateGoogleUser(googleId: string, email: string, displayName: string, photoUrl: string, now: Time, freshId: Uuid,
                            lookupFails: bool, writeFails: bool) returns (r: Result<User, UserError>)
      requires repo.Valid()
      modifies repo
      ensures repo.Valid()
      ensures (r, repo.users) == ProvisionGoogle(old(repo.users), googleId, email, displayName, photoUrl, now, freshId, lookupFails, writeFails)
    {
      var found := Lookup(repo.users, HasGoogleId(googleId), lookupFails);
      if found.Ok? {
        var u := found.value.(lastLoginAt := Some(now));
        var err := repo.Save(u, writeFails);
        return if err.Some? then Err(Db(err.value)) else Ok(u);
      }
      if found.error != RecordNotFound {
        return Err(Db(found.error));
      }
      var u := NewUser(freshId, Some(email), None, Some(displayName), Some(photoUrl), Some(googleId));
      var err := repo.Create(u, writeFails);
      if err.Some? {
        return Err(Db(err.value));
      }
      return Ok(u);
    }

    method AuthenticateUser(email: string, password: string, now: Time, lookupFails: bool, saveFails: bool)
      returns (r: Result<User, UserError>)
      requires repo.Valid()
      modifies repo
      ensures repo.Valid()
      ensures (r, repo.users) == Authenticate(old(repo.users), email, password, hasher, kdf, now, lookupFails, saveFails)
    {
      var found := Lookup(repo.users, HasEmail(email), lookupFails);
      if found.Err? {
        return if found.error == RecordNotFound then Err(AuthenticationFailed) else Err(Db(found.error));
      }
      var u := found.value;
      if u.password.None? {
        return Err(AuthenticationFailed);
      }
      var matched := hasher.Matches(kdf, password, u.password.value);
      if matched == Err(ParameterPanic) {
        return Err(Hashing(ParameterPanic));
      }
      if matched != Ok(true) {
        return Err(AuthenticationFailed);
      }
      u := u.(lastLoginAt := Some(now));
      var _ := repo.Save(u, saveFails);
      return Ok(u);
    }

    method GetUserById(userId: string, lookupFails: bool) returns (r: Result<User, UserError>)
      ensures r == FindById(repo.users, userId, lookupFails)
    {
      var id := ParseUuid(userId);
      if id.None? {
        return Err(InvalidUserId);
      }
      var found := Lookup(repo.users, HasId(id.value), lookupFails);
      if found.Err? {
        return if found.error == RecordNotFound then Err(UserNotFound) else Err(Db(found.error));
      }
      return Ok(found.value);
    }

    method UpdateUser(userId: string, displayName: Option<string>, photoUrl: Option<string>, prefs: Option<Prefs>,
                      lookupFails: bool, saveFails: bool) returns (r: Result<User, UserError>)
      requires repo.Valid()
      modifies repo
      ensures repo.Valid()
      ensures (r, repo.users) == UpdateProfile(old(repo.users), userId, displayName, photoUrl, prefs, lookupFails, saveFails)
    {
      var found := GetUserById(userId, lookupFails);
      if found.Err? {
        return found;
      }
      var updated := ApplyUpdate(found.value, displayName, photoUrl, prefs);
      if updated.None? {
        return Err(PreferencesUnparsable);
      }
      var u := updated.value;
      var err := repo.Save(u, saveFails);
      if err.Some? {
        return Err(Db(err.value));
      }
      return Ok(u);
    }
  }
}
