/** Identity and refresh-token store: registration, login, issuing and
    rotating tokens, the profile read and the three ways of revoking refresh
    tokens. Password hashing and JWT signing are the uninterpreted functions
    of a `Crypto` value; the clock is the parameter `now`. */
module AuthService {
  import opened Common
  import opened Store

  datatype RegisterDto = RegisterDto(email: string, password: string, name: string, currency: Option<string>)
  datatype LoginDto = LoginDto(email: string, password: string)

  /** The user part of a token response. */
  datatype PublicUser = PublicUser(id: Id, email: string, role: Role, region: Region)
  datatype AuthResult = AuthResult(accessToken: string, refreshToken: string, user: PublicUser)

  datatype UserProfile = UserProfile(id: Id, email: string, name: string, role: Role, region: Region, createdAt: int)

  datatype LogoutResult = LogoutResult(success: bool, message: string)
  const LOGGED_OUT: LogoutResult := LogoutResult(true, "Logged out successfully")

  const INVALID_CREDENTIALS: Error := Unauthorized("Invalid credentials")
  const INVALID_REFRESH: Error := Unauthorized("Invalid refresh token")

  /** Region guessed from the currency: INDIA for rupees, FOREIGN for any
      other currency or none. */
  function RegionFor(currency: Option<string>): (r: Region)
    ensures r == INDIA <==> currency == Some("INR")
    ensures r == FOREIGN <==> currency != Some("INR")
  {
    if currency == Some("INR") then INDIA else FOREIGN
  }

  /** The row a registration inserts: role USER, the password only as its
      hash, the region from the currency. */
  function NewUser(id: Id, dto: RegisterDto, crypto: Crypto, now: int): (u: User)
    ensures u.id == id && u.email == dto.email && u.name == dto.name
    ensures u.password == crypto.hash(dto.password)
    ensures u.role == USER && u.region == RegionFor(dto.currency)
  {
    User(id, dto.email, crypto.hash(dto.password), dto.name, USER, RegionFor(dto.currency), now)
  }

  predicate EmailTaken(users: map<Id, User>, email: string) {
    exists id :: id in users && users[id].email == email
  }

  /** The user with the given email, found through the unique index. */
  function FindByEmail(users: map<Id, User>, email: string): (r: Option<User>)
    requires UniqueEmails(users) && UsersKeyed(users)
    ensures r.None? <==> !EmailTaken(users, email)
    ensures r.Some? ==> r.value.id in users && users[r.value.id] == r.value && r.value.email == email
  {
    if EmailTaken(users, email) then
      var id :| id in users && users[id].email == email;
      Some(users[id])
    else None
  }

  /** The login check: the user with that email whose stored hash matches the
      password. An unknown email and a wrong password give the same error. */
  function CheckCredentials(users: map<Id, User>, dto: LoginDto, crypto: Crypto): (r: Result<User>)
    requires UniqueEmails(users) && UsersKeyed(users)
    ensures r.Err? ==> r.error == INVALID_CREDENTIALS
    ensures !EmailTaken(users, dto.email) ==> r == Err(INVALID_CREDENTIALS)
    ensures r.Ok? <==> exists id :: id in users && users[id].email == dto.email
                                    && crypto.compare(dto.password, users[id].password)
    ensures r.Ok? ==> r.value.email == dto.email && r.value.id in users && users[r.value.id] == r.value
  {
    match FindByEmail(users, dto.email)
    case None => Err(INVALID_CREDENTIALS)
    case Some(user) =>
      if crypto.compare(dto.password, user.password) then Ok(user) else Err(INVALID_CREDENTIALS)
  }

  /** The region projected into a token response: the stored user's, or
      INDIA when the user row cannot be read. */
  function ProjectedRegion(users: map<Id, User>, userId: Id): (r: Region)
    ensures userId in users ==> r == users[userId].region
    ensures userId !in users ==> r == INDIA
  {
    if userId in users then users[userId].region else INDIA
  }

  /** The effect of an operation on the refresh-token table. */
  datatype AuthUpdate = AuthUpdate(result: Result<AuthResult>, refreshTokens: map<string, RefreshRecord>)

  /** Issuing a token pair: both tokens carry the claims {sub, email, role};
      the refresh token is stored for the user, expiring seven days from now.
      A refresh token already stored violates the unique constraint. */
  function Issue(users: map<Id, User>, rts: map<string, RefreshRecord>, userId: Id, email: string,
                 role: Role, crypto: Crypto, now: int): (u: AuthUpdate)
    ensures var rt := crypto.sign(Claims(userId, email, role), RefreshSecret, now);
            && (u.result.Err? <==> rt in rts)
            && (u.result.Err? ==> u == AuthUpdate(Err(StoreError(UNIQUE_VIOLATION)), rts))
            && (u.result.Ok? ==>
                  && u.result.value.refreshToken == rt
                  && u.result.value.accessToken == crypto.sign(Claims(userId, email, role), AccessSecret, now)
                  && u.result.value.user == PublicUser(userId, email, role, ProjectedRegion(users, userId))
                  && u.refreshTokens == rts[rt := RefreshRecord(userId, now + SEVEN_DAYS_MS)])
  {
    var payload := Claims(userId, email, role);
    var accessToken := crypto.sign(payload, AccessSecret, now);
    var refreshToken := crypto.sign(payload, RefreshSecret, now);
    if refreshToken in rts then AuthUpdate(Err(StoreError(UNIQUE_VIOLATION)), rts)
    else
      var expiresAt := now + SEVEN_DAYS_MS;
      AuthUpdate(Ok(AuthResult(accessToken, refreshToken, PublicUser(userId, email, role, ProjectedRegion(users, userId)))),
                 rts[refreshToken := RefreshRecord(userId, expiresAt)])
  }

  /** A successful issue adds exactly one record, owned by the user, and
      removes none. */
  lemma IssueAddsOneRecord(users: map<Id, User>, rts: map<string, RefreshRecord>, userId: Id, email: string,
                           role: Role, crypto: Crypto, now: int)
    requires Issue(users, rts, userId, email, role, crypto, now).result.Ok?
    ensures var u := Issue(users, rts, userId, email, role, crypto, now);
            && |u.refreshTokens| == |rts| + 1
            && u.refreshTokens.Keys == rts.Keys + {u.result.value.refreshToken}
            && u.refreshTokens[u.result.value.refreshToken] == RefreshRecord(userId, now + SEVEN_DAYS_MS)
            && forall t :: t in rts ==> t in u.refreshTokens && u.refreshTokens[t] == rts[t]
  {
    var u := Issue(users, rts, userId, email, role, crypto, now);
    var rt := u.result.value.refreshToken;
    assert rt !in rts;
    assert u.refreshTokens.Keys == rts.Keys + {rt};
    assert |rts.Keys + {rt}| == |rts.Keys| + 1;
  }

  /** The guard chain of a refresh: the signature verifies, the subject is a
      known user, the token is stored and its stored expiry has not passed. */
  predicate RefreshAccepted(users: map<Id, User>, rts: map<string, RefreshRecord>, token: string,
                            crypto: Crypto, now: int) {
    && crypto.verify(token, RefreshSecret, now).Some?
    && crypto.verify(token, RefreshSecret, now).value.sub in users
    && token in rts
    && !(rts[token].expiresAt < now)
  }

  /** Rotation. A token that fails the guard chain is the same Unauthorized
      error and changes nothing. Otherwise the presented record is deleted
      and a new pair is issued for the stored user's current email and role.
      Issuing is returned from the guarded block without being awaited, so
      its failure is not turned into the Unauthorized error: the store's
      unique violation reaches the caller, with the presented token gone. */
  function Refresh(users: map<Id, User>, rts: map<string, RefreshRecord>, token: string,
                   crypto: Crypto, now: int): (u: AuthUpdate)
    ensures !RefreshAccepted(users, rts, token, crypto, now) ==> u == AuthUpdate(Err(INVALID_REFRESH), rts)
    ensures RefreshAccepted(users, rts, token, crypto, now) ==>
              var user := users[crypto.verify(token, RefreshSecret, now).value.sub];
              var issued := Issue(users, rts - {token}, user.id, user.email, user.role, crypto, now);
              && u == issued
              && (issued.result.Err? ==> u == AuthUpdate(Err(StoreError(UNIQUE_VIOLATION)), rts - {token}))
    ensures u.result.Err? ==> u.result.error in {INVALID_REFRESH, StoreError(UNIQUE_VIOLATION)}
  {
    match crypto.verify(token, RefreshSecret, now)
    case None => AuthUpdate(Err(INVALID_REFRESH), rts)
    case Some(payload) =>
      if payload.sub !in users then AuthUpdate(Err(INVALID_REFRESH), rts)
      else if token !in rts || rts[token].expiresAt < now then AuthUpdate(Err(INVALID_REFRESH), rts)
      else
        var user := users[payload.sub];
        Issue(users, rts - {token}, user.id, user.email, user.role, crypto, now)
  }

  /** A refresh token is consumed by a successful refresh: it is no longer
      stored unless the newly signed token happens to be the same string. */
  lemma RefreshConsumesToken(users: map<Id, User>, rts: map<string, RefreshRecord>, token: string,
                             crypto: Crypto, now: int)
    requires Refresh(users, rts, token, crypto, now).result.Ok?
    ensures var u := Refresh(users, rts, token, crypto, now);
            token in u.refreshTokens <==> u.result.value.refreshToken == token
  {
  }

  /** Re-presenting a rotated-away refresh token fails, at any later time. */
  lemma RefreshSingleUse(users: map<Id, User>, rts: map<string, RefreshRecord>, token: string,
                         crypto: Crypto, now: int, later: int)
    requires Refresh(users, rts, token, crypto, now).result.Ok?
    requires Refresh(users, rts, token, crypto, now).result.value.refreshToken != token
    ensures Refresh(users, Refresh(users, rts, token, crypto, now).refreshTokens, token, crypto, later)
              == AuthUpdate(Err(INVALID_REFRESH), Refresh(users, rts, token, crypto, now).refreshTokens)
  {
    RefreshConsumesToken(users, rts, token, crypto, now);
  }

  /** The profile of a user; an unknown id is Unauthorized. */
  function GetMe(users: map<Id, User>, userId: Id): (r: Result<UserProfile>)
    ensures userId !in users <==> r == Err(Unauthorized("User not found"))
    ensures r.Ok? ==> var u := users[userId];
                      r.value == UserProfile(u.id, u.email, u.name, u.role, u.region, u.createdAt)
  {
    if userId !in users then Err(Unauthorized("User not found"))
    else
      var u := users[userId];
      Ok(UserProfile(u.id, u.email, u.name, u.role, u.region, u.createdAt))
  }

  /** Logout of one user: with a (truthy) token, only the user's record with
      that token goes; without one, all and only the user's records go. */
  function LogoutTokens(rts: map<string, RefreshRecord>, userId: Id, token: Option<string>)
    : (r: map<string, RefreshRecord>)
    ensures forall t :: t in r ==> t in rts && r[t] == rts[t]
    ensures Truthy(token) ==> forall t :: t in rts ==> (t !in r <==> t == token.value && rts[t].userId == userId)
    ensures !Truthy(token) ==> forall t :: t in rts ==> (t !in r <==> rts[t].userId == userId)
  {
    if Truthy(token) then
      map t | t in rts && !(rts[t].userId == userId && t == token.value) :: rts[t]
    else
      map t | t in rts && rts[t].userId != userId :: rts[t]
  }

  /** Logout by token value alone: every record with that token goes,
      whoever owns it. */
  function RevokeToken(rts: map<string, RefreshRecord>, token: string): (r: map<string, RefreshRecord>)
    ensures token !in r
    ensures forall t :: t in rts && t != token ==> t in r && r[t] == rts[t]
    ensures forall t :: t in r ==> t in rts
  {
    map t | t in rts && t != token :: rts[t]
  }

  /** Logging out everywhere leaves none of the user's records and every
      other user's records untouched. */
  lemma LogoutAllIsolatesUser(rts: map<string, RefreshRecord>, userId: Id)
    ensures forall t :: t in LogoutTokens(rts, userId, None) ==> LogoutTokens(rts, userId, None)[t].userId != userId
    ensures forall t :: t in rts && rts[t].userId != userId ==> t in LogoutTokens(rts, userId, None)
  {
  }

  // ---------------------------------------------------------------------
  // The service's state-changing operations
  // ---------------------------------------------------------------------

  /** Issues a token pair for a user and stores the refresh token. */
  method GenerateTokens(db: Database, userId: Id, email: string, role: Role, crypto: Crypto, now: int)
    returns (r: Result<AuthResult>)
    requires db.Valid()
    modifies db`refreshTokens
    ensures db.Valid()
    ensures AuthUpdate(r, db.refreshTokens) == Issue(db.users, old(db.refreshTokens), userId, email, role, crypto, now)
  {
    var region := ProjectedRegion(db.users, userId);
    var payload := Claims(userId, email, role);
    var accessToken := crypto.sign(payload, AccessSecret, now);
    var refreshToken := crypto.sign(payload, RefreshSecret, now);
    var expiresAt := now + SEVEN_DAYS_MS;
    if refreshToken in db.refreshTokens {
      return Err(StoreError(UNIQUE_VIOLATION));
    }
    db.refreshTokens := db.refreshTokens[refreshToken := RefreshRecord(userId, expiresAt)];
    r := Ok(AuthResult(accessToken, refreshToken, PublicUser(userId, email, role, region)));
  }

  /** Registers a user and logs them in. A taken email is a BadRequest and
      changes nothing. `newId` is the id the store assigns. */
  method Register(db: Database, dto: RegisterDto, crypto: Crypto, now: int, newId: Id)
    returns (r: Result<AuthResult>)
    requires db.Valid() && newId !in db.users
    requires |dto.password| >= 6 && dto.name != ""
    modifies db`users, db`refreshTokens
    ensures db.Valid()
    ensures EmailTaken(old(db.users), dto.email) ==>
              r == Err(BadRequest("User already exists"))
              && db.users == old(db.users) && db.refreshTokens == old(db.refreshTokens)
    ensures !EmailTaken(old(db.users), dto.email) ==>
              && db.users == old(db.users)[newId := NewUser(newId, dto, crypto, now)]
              && AuthUpdate(r, db.refreshTokens)
                 == Issue(db.users, old(db.refreshTokens), newId, dto.email, USER, crypto, now)
  {
    if EmailTaken(db.users, dto.email) {
      return Err(BadRequest("User already exists"));
    }
    var user := NewUser(newId, dto, crypto, now);
    db.users := db.users[newId := user];
    r := GenerateTokens(db, user.id, user.email, user.role, crypto, now);
  }

  /** Logs a user in; both credential failures are the same error and
      change nothing. */
  method Login(db: Database, dto: LoginDto, crypto: Crypto, now: int) returns (r: Result<AuthResult>)
    requires db.Valid()
    modifies db`refreshTokens
    ensures db.Valid()
    ensures CheckCredentials(db.users, dto, crypto).Err? ==>
              r == Err(INVALID_CREDENTIALS) && db.refreshTokens == old(db.refreshTokens)
    ensures CheckCredentials(db.users, dto, crypto).Ok? ==>
              var u := CheckCredentials(db.users, dto, crypto).value;
              AuthUpdate(r, db.refreshTokens) == Issue(db.users, old(db.refreshTokens), u.id, u.email, u.role, crypto, now)
  {
    var found := FindByEmail(db.users, dto.email);
    if found.None? || !crypto.compare(dto.password, found.value.password) {
      return Err(INVALID_CREDENTIALS);
    }
    var user := found.value;
    r := GenerateTokens(db, user.id, user.email, user.role, crypto, now);
  }

  /** Rotates a refresh token. */
  method RefreshTokens(db: Database, refreshToken: string, crypto: Crypto, now: int) returns (r: Result<AuthResult>)
    requires db.Valid()
    modifies db`refreshTokens
    ensures db.Valid()
    ensures AuthUpdate(r, db.refreshTokens) == Refresh(db.users, old(db.refreshTokens), refreshToken, crypto, now)
  {
    var payload := crypto.verify(refreshToken, RefreshSecret, now);
    if payload.None? || payload.value.sub !in db.users {
      return Err(INVALID_REFRESH);
    }
    var user := db.users[payload.value.sub];
    if refreshToken !in db.refreshTokens || db.refreshTokens[refreshToken].expiresAt < now {
      return Err(INVALID_REFRESH);
    }
    db.refreshTokens := RevokeToken(db.refreshTokens, refreshToken);
    assert db.refreshTokens == old(db.refreshTokens) - {refreshToken};
    r := GenerateTokens(db, user.id, user.email, user.role, crypto, now);
  }

  /** Deletes one of the user's tokens, or all of them; always succeeds. */
  method Logout(db: Database, userId: Id, refreshToken: Option<string>) returns (r: LogoutResult)
    requires db.Valid()
    modifies db`refreshTokens
    ensures db.Valid()
    ensures r == LOGGED_OUT
    ensures db.refreshTokens == LogoutTokens(old(db.refreshTokens), userId, refreshToken)
  {
    db.refreshTokens := LogoutTokens(db.refreshTokens, userId, refreshToken);
    r := LOGGED_OUT;
  }

  /** Deletes every record with the token value, whether or not one exists. */
  method LogoutByRefreshToken(db: Database, refreshToken: string) returns (r: LogoutResult)
    requires db.Valid()
    modifies db`refreshTokens
    ensures db.Valid()
    ensures r == LOGGED_OUT
    ensures db.refreshTokens == RevokeToken(old(db.refreshTokens), refreshToken)
  {
    db.refreshTokens := RevokeToken(db.refreshTokens, refreshToken);
    r := LOGGED_OUT;
  }
}
