/**
 * The auth controller (`AuthController`): each handler calls the auth
 * service and then either sets the tokens as cookies and leaves them out of
 * the body (cookie mode, `x-auth-type: cookie`) or returns them in the body.
 * A failure from the service is passed on to the error middleware.
 */
module AuthController {
  import opened Js
  import opened Jwt
  import opened ApiResponse
  import opened HttpClient
  import opened Express
  import opened AuthUtils
  import opened AuthService

  /** `req.headers['x-auth-type'] === 'cookie'`. */
  predicate CookieMode(headers: map<string, string>)
  {
    "x-auth-type" in headers && headers["x-auth-type"] == "cookie"
  }

  /** The `data` of a register or login response. */
  function SessionData(cookieMode: bool, s: Session): Value
  {
    if cookieMode then Obj(map["user" := s.user])
    else Obj(map["user" := s.user, "accessToken" := Str(s.tokens.accessToken),
                 "refreshToken" := Str(s.tokens.refreshToken)])
  }

  /** The `data` of a refresh response. */
  function RefreshData(cookieMode: bool, t: Tokens): Value
  {
    if cookieMode then Obj(map[])
    else Obj(map["accessToken" := Str(t.accessToken), "refreshToken" := Str(t.refreshToken)])
  }

  /** The cookie instructions a handler issuing `t` writes. */
  function TokenCookies(env: Env, cookieMode: bool, t: Tokens): seq<CookieOp>
  {
    if cookieMode then AuthCookieOps(env, t.accessToken, t.refreshToken) else []
  }

  /**
   * The tokens reach the client in exactly one way: in cookie mode as the
   * two cookies and not in the body, otherwise in the body and with no
   * cookie written.
   */
  lemma TokensDeliveredOnce(env: Env, jar: map<string, Cookie>, cookieMode: bool, s: Session)
    ensures cookieMode ==>
      && SessionData(cookieMode, s).fields.Keys == {"user"}
      && Jar(jar, TokenCookies(env, cookieMode, s.tokens)).Keys >= {"accessToken", "refreshToken"}
      && Jar(jar, TokenCookies(env, cookieMode, s.tokens))["accessToken"].value == s.tokens.accessToken
      && Jar(jar, TokenCookies(env, cookieMode, s.tokens))["refreshToken"].value == s.tokens.refreshToken
    ensures !cookieMode ==>
      && TokenCookies(env, cookieMode, s.tokens) == []
      && SessionData(cookieMode, s).fields.Keys == {"user", "accessToken", "refreshToken"}
      && SessionData(cookieMode, s).fields["accessToken"] == Str(s.tokens.accessToken)
      && SessionData(cookieMode, s).fields["refreshToken"] == Str(s.tokens.refreshToken)
    ensures SessionData(cookieMode, s).fields["user"] == s.user
  {
    AuthCookiesSet(env, jar, s.tokens.accessToken, s.tokens.refreshToken);
  }

  /** The same rule for a refresh: cookie mode answers with `{}`. */
  lemma RefreshDeliveredOnce(env: Env, jar: map<string, Cookie>, cookieMode: bool, t: Tokens)
    ensures cookieMode ==>
      && RefreshData(cookieMode, t) == Obj(map[])
      && Jar(jar, TokenCookies(env, cookieMode, t)).Keys >= {"accessToken", "refreshToken"}
      && Jar(jar, TokenCookies(env, cookieMode, t))["accessToken"].value == t.accessToken
      && Jar(jar, TokenCookies(env, cookieMode, t))["refreshToken"].value == t.refreshToken
    ensures !cookieMode ==>
      TokenCookies(env, cookieMode, t) == [] &&
      RefreshData(cookieMode, t) == Obj(map["accessToken" := Str(t.accessToken), "refreshToken" := Str(t.refreshToken)])
  {
    AuthCookiesSet(env, jar, t.accessToken, t.refreshToken);
  }

  /** The credentials of a register request body. */
  datatype Registration = Registration(email: string, password: string, firstName: string, lastName: string)

  /**
   * `register`: on success the response is 201 "User registered
   * successfully"; `forwarded` is the error handed to `next` otherwise, with
   * nothing written.
   */
  method Register(res: HttpResponse, headers: map<string, string>, body: Registration,
                  env: Env, crypto: Crypto, now: int, transport: Transport)
    returns (forwarded: Option<Exception>)
    modifies res
    ensures var outcome := match Received(transport)
                           case Err(e) => Err(e)
                           case Ok(user) => SessionFor(crypto, user, now);
      && (outcome.Err? ==> forwarded == Some(outcome.error) && unchanged(res))
      && (outcome.Ok? ==>
            && forwarded == None
            && res.statusCode == 201
            && res.body == Some(Success(SessionData(CookieMode(headers), outcome.value), "User registered successfully"))
            && res.cookieOps == old(res.cookieOps) + TokenCookies(env, CookieMode(headers), outcome.value.tokens))
  {
    var _, session := AuthService.Register(env, crypto, now, body.email, body.password, body.firstName,
                                           body.lastName, transport);
    if session.Err? {
      return Some(session.error);
    }
    var s := session.value;
    if CookieMode(headers) {
      SetAuthCookies(res, env, s.tokens.accessToken, s.tokens.refreshToken);
      res.Status(201);
      res.Json(Success(Obj(map["user" := s.user]), "User registered successfully"));
      return None;
    }
    res.Status(201);
    res.Json(Success(Obj(map["user" := s.user, "accessToken" := Str(s.tokens.accessToken),
                             "refreshToken" := Str(s.tokens.refreshToken)]), "User registered successfully"));
    forwarded := None;
  }

  /** `login`: as `register`, with the default status and "Login successful". */
  method Login(res: HttpResponse, headers: map<string, string>, email: string, password: string,
               env: Env, crypto: Crypto, now: int, transport: Transport)
    returns (forwarded: Option<Exception>)
    modifies res
    ensures var outcome := match Received(transport)
                           case Err(e) => Err(e)
                           case Ok(users) => Authorise(crypto, now, users, password);
      && (outcome.Err? ==> forwarded == Some(outcome.error) && unchanged(res))
      && (outcome.Ok? ==>
            && forwarded == None
            && res.statusCode == old(res.statusCode)
            && res.body == Some(Success(SessionData(CookieMode(headers), outcome.value), "Login successful"))
            && res.cookieOps == old(res.cookieOps) + TokenCookies(env, CookieMode(headers), outcome.value.tokens))
  {
    var _, session := AuthService.Login(env, crypto, now, email, password, transport);
    if session.Err? {
      return Some(session.error);
    }
    var s := session.value;
    if CookieMode(headers) {
      SetAuthCookies(res, env, s.tokens.accessToken, s.tokens.refreshToken);
      res.Json(Success(Obj(map["user" := s.user]), "Login successful"));
      return None;
    }
    res.Json(Success(Obj(map["user" := s.user, "accessToken" := Str(s.tokens.accessToken),
                             "refreshToken" := Str(s.tokens.refreshToken)]), "Login successful"));
    forwarded := None;
  }

  /** `refreshToken`: the token is always read from the body, in both modes. */
  method Refresh(res: HttpResponse, headers: map<string, string>, refreshToken: string,
                 env: Env, crypto: Crypto, now: int)
    returns (forwarded: Option<Exception>)
    modifies res
    ensures var outcome := RefreshToken(crypto, now, refreshToken);
      && (outcome.Err? ==> forwarded == Some(outcome.error) && unchanged(res))
      && (outcome.Ok? ==>
            && forwarded == None
            && res.statusCode == old(res.statusCode)
            && res.body == Some(Success(RefreshData(CookieMode(headers), outcome.value), "Token refreshed successfully"))
            && res.cookieOps == old(res.cookieOps) + TokenCookies(env, CookieMode(headers), outcome.value))
  {
    var tokens := RefreshToken(crypto, now, refreshToken);
    if tokens.Err? {
      return Some(tokens.error);
    }
    var t := tokens.value;
    if CookieMode(headers) {
      SetAuthCookies(res, env, t.accessToken, t.refreshToken);
      res.Json(Success(Obj(map[]), "Token refreshed successfully"));
      return None;
    }
    res.Json(Success(Obj(map["accessToken" := Str(t.accessToken), "refreshToken" := Str(t.refreshToken)]),
                     "Token refreshed successfully"));
    forwarded := None;
  }

  /** `logout`: always answers "Logged out successfully"; cookies are cleared only in cookie mode. */
  method Logout(res: HttpResponse, headers: map<string, string>)
    modifies res
    ensures res.statusCode == old(res.statusCode)
    ensures res.body == Some(Success(Obj(map[]), "Logged out successfully"))
    ensures res.cookieOps == old(res.cookieOps) + (if CookieMode(headers) then ClearAuthCookieOps() else [])
  {
    if CookieMode(headers) {
      ClearAuthCookies(res);
    }
    res.Json(Success(Obj(map[]), "Logged out successfully"));
  }
}
