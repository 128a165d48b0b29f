/** `protect`: finds the bearer token, verifies it and loads the user it names. */
module AuthMiddleware {
  import opened Common
  import opened Text
  import opened Collections
  import opened UserModel

  /** The parts of a request `protect` reads: the Authorization header and the `token` cookie. */
  datatype Request = Request(authorization: Option<string>, cookieToken: Option<string>)

  const NOT_LOGGED_IN: ApiError := ApiError(401, "You are not logged in. Please log in to access this.")
  const BAD_TOKEN: ApiError := ApiError(401, "Invalid or expired token. Please log in again.")
  const USER_GONE: ApiError := ApiError(401, "The user belonging to this token no longer exists.")

  predicate BearerHeader(req: Request)
  {
    req.authorization.Some? && StartsWith(req.authorization.value, "Bearer")
  }

  /** The token the request carries: the second space-separated piece of a header that starts with
      "Bearer", or else a non-empty cookie. */
  function TokenFrom(req: Request): Option<string>
  {
    if BearerHeader(req) then
      var parts := Split(req.authorization.value, ' ');
      if |parts| >= 2 then Some(parts[1]) else None
    else if Present(req.cookieToken) then req.cookieToken
    else None
  }

  /** A "Bearer" header wins: the cookie is never consulted when one is present. */
  lemma HeaderBeatsCookie(req: Request, cookie: Option<string>)
    requires BearerHeader(req)
    ensures TokenFrom(req.(cookieToken := cookie)) == TokenFrom(req)
  {
  }

  /** Without such a header the cookie is the token. */
  lemma CookieWithoutHeader(req: Request)
    requires !BearerHeader(req) && Present(req.cookieToken)
    ensures TokenFrom(req) == req.cookieToken
  {
  }

  /** A header of just "Bearer" carries no token, whatever the cookie holds. */
  lemma BareBearer(cookie: Option<string>)
    ensures TokenFrom(Request(Some("Bearer"), cookie)) == None
  {
    assert StartsWith("Bearer", "Bearer");
    SplitJoin(["Bearer"], ' ');
    assert Join(["Bearer"], [' ']) == "Bearer";
  }

  /** "Bearer " followed by a token without spaces yields exactly that token. */
  lemma BearerToken(t: string, cookie: Option<string>)
    requires ' ' !in t
    ensures TokenFrom(Request(Some("Bearer " + t), cookie)) == Some(t)
  {
    var h := "Bearer " + t;
    assert h[..6] == "Bearer";
    SplitJoin(["Bearer", t], ' ');
    assert Join(["Bearer", t], [' ']) == h;
  }

  /** `protect`: `verify` stands for `jwt.verify` with the server's secret and gives the id the
      token was signed for; `users` is the user collection. On success the request proceeds with
      the user as `req.user`. */
  method Protect(req: Request, verify: string -> Option<Id>, users: seq<User>) returns (r: Result<User>)
    ensures !Present(TokenFrom(req)) ==> r == Err(NOT_LOGGED_IN)
    ensures Present(TokenFrom(req)) && verify(TokenFrom(req).value).None? ==> r == Err(BAD_TOKEN)
    ensures Present(TokenFrom(req)) && verify(TokenFrom(req).value).Some? ==>
      match FindUser(users, verify(TokenFrom(req).value).value)
      case None => r == Err(USER_GONE)
      case Some(k) => r == Ok(users[k])
    ensures r.Ok? ==> r.value in users
  {
    var token: Option<string> := None;
    if req.authorization.Some? && StartsWith(req.authorization.value, "Bearer") {
      var parts := Split(req.authorization.value, ' ');
      if |parts| >= 2 { token := Some(parts[1]); }
    } else if req.cookieToken.Some? && req.cookieToken.value != [] {
      token := req.cookieToken;
    }
    if token.None? || token.value == [] {
      return Err(NOT_LOGGED_IN);
    }
    var decoded := verify(token.value);
    if decoded.None? {
      return Err(BAD_TOKEN);
    }
    var k := FindUser(users, decoded.value);
    if k.None? {
      return Err(USER_GONE);
    }
    r := Ok(users[k.value]);
  }
}
