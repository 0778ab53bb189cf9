/** The authentication endpoints' own decisions: where a refresh token is
    read from, and how refresh, profile and logout requests are dispatched to
    the identity service, depending on whether the optional access-token
    guard found a user. */
module AuthController {
  import opened Common
  import opened Store
  import opened AuthService
  import JwtStrategy

  /** The token-bearing parts of a refresh or logout request: the two body
      spellings and the `refreshToken` cookie. */
  datatype TokenSources = TokenSources(bodyRefreshToken: Option<string>, bodyRefresh_token: Option<string>,
                                       cookieRefreshToken: Option<string>)

  /** The first truthy of the body's `refreshToken`, the body's
      `refresh_token` and the cookie; None when all are falsy. */
  function RefreshTokenOf(src: TokenSources): (r: Option<string>)
    ensures r.Some? ==> r.value != ""
    ensures Truthy(src.bodyRefreshToken) ==> r == src.bodyRefreshToken
    ensures !Truthy(src.bodyRefreshToken) && Truthy(src.bodyRefresh_token) ==> r == src.bodyRefresh_token
    ensures !Truthy(src.bodyRefreshToken) && !Truthy(src.bodyRefresh_token) ==>
              r == (if Truthy(src.cookieRefreshToken) then src.cookieRefreshToken else None)
  {
    if Truthy(src.bodyRefreshToken) then src.bodyRefreshToken
    else if Truthy(src.bodyRefresh_token) then src.bodyRefresh_token
    else if Truthy(src.cookieRefreshToken) then src.cookieRefreshToken
    else None
  }

  /** What a logout request does. */
  datatype LogoutAction =
    | LogoutUser(userId: Id, token: Option<string>)
    | LogoutToken(value: string)
    | NothingToDo

  /** An authenticated caller logs out through their own id, with the token
      when there is one; an anonymous caller with a token revokes it by value;
      an anonymous caller without one is told it succeeded. */
  function LogoutDispatch(user: Option<JwtStrategy.JwtUser>, token: Option<string>): (a: LogoutAction)
    requires token.Some? ==> token.value != ""
    ensures user.Some? <==> a.LogoutUser?
    ensures user.Some? ==> a == LogoutUser(user.value.userId, token)
    ensures user.None? && token.Some? ==> a == LogoutToken(token.value)
    ensures a == NothingToDo <==> user.None? && token.None?
  {
    if user.Some? then LogoutUser(user.value.userId, token)
    else if token.Some? then LogoutToken(token.value)
    else NothingToDo
  }

  /** The refresh endpoint: without a token it fails with a plain error and
      never reaches the service. */
  method Refresh(db: Database, src: TokenSources, crypto: Crypto, now: int) returns (r: Result<AuthResult>)
    requires db.Valid()
    modifies db`refreshTokens
    ensures db.Valid()
    ensures RefreshTokenOf(src).None? ==>
              r == Err(Plain("Refresh token is required")) && db.refreshTokens == old(db.refreshTokens)
    ensures RefreshTokenOf(src).Some? ==>
              AuthUpdate(r, db.refreshTokens)
              == AuthService.Refresh(db.users, old(db.refreshTokens), RefreshTokenOf(src).value, crypto, now)
  {
    var refreshToken := RefreshTokenOf(src);
    if refreshToken.None? {
      return Err(Plain("Refresh token is required"));
    }
    r := RefreshTokens(db, refreshToken.value, crypto, now);
  }

  /** The profile endpoint: null for an anonymous caller, otherwise the
      caller's profile. */
  function GetMeEndpoint(users: map<Id, User>, user: Option<JwtStrategy.JwtUser>): (r: Result<Option<UserProfile>>)
    ensures user.None? ==> r == Ok(None)
    ensures user.Some? && user.value.userId !in users ==> r == Err(Unauthorized("User not found"))
    ensures user.Some? && user.value.userId in users ==> r == Ok(Some(GetMe(users, user.value.userId).value))
  {
    if user.None? then Ok(None)
    else
      var profile :- GetMe(users, user.value.userId);
      Ok(Some(profile))
  }

  /** The logout endpoint; it always reports success. */
  method Logout(db: Database, user: Option<JwtStrategy.JwtUser>, src: TokenSources) returns (r: LogoutResult)
    requires db.Valid()
    modifies db`refreshTokens
    ensures db.Valid()
    ensures r == LOGGED_OUT
    ensures var token := RefreshTokenOf(src);
            match LogoutDispatch(user, token)
            case LogoutUser(userId, t) => db.refreshTokens == LogoutTokens(old(db.refreshTokens), userId, t)
            case LogoutToken(t) => db.refreshTokens == RevokeToken(old(db.refreshTokens), t)
            case NothingToDo => db.refreshTokens == old(db.refreshTokens)
  {
    var refreshToken := RefreshTokenOf(src);
    if user.Some? {
      r := AuthService.Logout(db, user.value.userId, refreshToken);
      return;
    }
    if refreshToken.Some? {
      r := LogoutByRefreshToken(db, refreshToken.value);
      return;
    }
    r := LOGGED_OUT;
  }
}
