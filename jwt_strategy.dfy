/** The access-token strategy: where the token is read from (an
    `Authorization: Bearer` header first, then the `accessToken` cookie) and
    how verified claims become the request's user. */
module JwtStrategy {
  import opened Common
  import Store
  import AuthService

  /** The parts of a request the extractor reads: the Authorization header
      and the parsed cookie jar, each possibly absent. */
  datatype Request = Request(authorization: Option<string>, cookies: Option<map<string, string>>)

  const BEARER: string := "Bearer "

  predicate StartsWith(s: string, prefix: string) {
    |prefix| <= |s| && s[..|prefix|] == prefix
  }

  predicate HasBearer(req: Request) {
    req.authorization.Some? && StartsWith(req.authorization.value, BEARER)
  }

  /** The `accessToken` cookie, if the jar holds a non-empty one. */
  function AccessCookie(req: Request): (r: Option<string>)
    ensures r.Some? <==> req.cookies.Some? && "accessToken" in req.cookies.value
                         && req.cookies.value["accessToken"] != ""
    ensures r.Some? ==> r.value == req.cookies.value["accessToken"] && r.value != ""
  {
    if req.cookies.Some? && "accessToken" in req.cookies.value && req.cookies.value["accessToken"] != ""
    then Some(req.cookies.value["accessToken"])
    else None
  }

  /** The token of a request: the rest of a Bearer header, else a non-empty
      access-token cookie, else none. */
  function ExtractJwtFromHeaderOrCookie(req: Request): (r: Option<string>)
    ensures HasBearer(req) ==> r == Some(req.authorization.value[|BEARER|..])
    ensures !HasBearer(req) ==> r == AccessCookie(req)
    ensures !HasBearer(req) && AccessCookie(req).None? ==> r.None?
  {
    if HasBearer(req) then Some(req.authorization.value[|BEARER|..]) else AccessCookie(req)
  }

  /** A Bearer header yields exactly the token after the prefix, whatever
      the cookies say. */
  lemma BearerRoundTrip(token: string, cookies: Option<map<string, string>>)
    ensures ExtractJwtFromHeaderOrCookie(Request(Some(BEARER + token), cookies)) == Some(token)
  {
    assert StartsWith(BEARER + token, BEARER);
    assert (BEARER + token)[|BEARER|..] == token;
  }

  /** A header with a different prefix, such as lower-case "bearer ",
      counts as no header at all. */
  lemma OtherSchemeFallsThrough(token: string, cookies: Option<map<string, string>>)
    ensures ExtractJwtFromHeaderOrCookie(Request(Some("bearer " + token), cookies))
            == ExtractJwtFromHeaderOrCookie(Request(None, cookies))
  {
    assert ("bearer " + token)[0] == 'b';
    assert !StartsWith("bearer " + token, BEARER);
  }

  /** An empty access-token cookie counts as absent. */
  lemma EmptyCookieIsAbsent(authorization: Option<string>)
    ensures ExtractJwtFromHeaderOrCookie(Request(authorization, Some(map["accessToken" := ""])))
            == ExtractJwtFromHeaderOrCookie(Request(authorization, None))
  {
  }

  /** The request user built from verified claims. */
  datatype JwtUser = JwtUser(userId: Id, email: string, role: Role)

  function Validate(payload: Claims): (u: JwtUser)
    ensures u.userId == payload.sub && u.email == payload.email && u.role == payload.role
  {
    JwtUser(payload.sub, payload.email, payload.role)
  }

  /** When verification inverts signing, the access token issued for a user
      validates back to that user's id, email and role. */
  lemma IssuedAccessTokenIdentifiesUser(users: map<Id, Store.User>, rts: map<string, Store.RefreshRecord>,
                                        userId: Id, email: string, role: Role, crypto: Crypto, now: int, later: int)
    requires AuthService.Issue(users, rts, userId, email, role, crypto, now).result.Ok?
    requires var c := Claims(userId, email, role);
             crypto.verify(crypto.sign(c, AccessSecret, now), AccessSecret, later) == Some(c)
    ensures var issued := AuthService.Issue(users, rts, userId, email, role, crypto, now).result.value;
            var claims := crypto.verify(issued.accessToken, AccessSecret, later);
            claims.Some? && Validate(claims.value) == JwtUser(userId, email, role)
  {
  }
}
