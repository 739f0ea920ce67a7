/**
 * The shared authentication helpers: the two auth cookies, and the
 * `authenticateJWT` gate that finds a credential in the `Authorization`
 * header or, failing that, in the `accessToken` cookie, and verifies it
 * with the secret its scheme calls for.
 */
module AuthUtils {
  import opened Js
  import opened JsString
  import opened ApiResponse
  import opened Jwt
  import opened Express

  const AccessCookie := "accessToken"
  const RefreshCookie := "refreshToken"
  /** 15 minutes and 7 days, in milliseconds. */
  const AccessCookieMaxAge: nat := 15 * 60 * 1000
  const RefreshCookieMaxAge: nat := 7 * 24 * 60 * 60 * 1000

  /** `secure` follows `NODE_ENV === 'production'`; an unset NODE_ENV is not production. */
  predicate Production(env: Env)
  {
    "NODE_ENV" in env && env["NODE_ENV"] == "production"
  }

  function AuthCookieOptions(env: Env, maxAge: nat): CookieOptions
  {
    CookieOptions(true, Production(env), maxAge, "strict")
  }

  /** The two `res.cookie` calls of `setAuthCookies`, in order. */
  function AuthCookieOps(env: Env, accessToken: string, refreshToken: string): seq<CookieOp>
  {
    [Set(AccessCookie, accessToken, AuthCookieOptions(env, AccessCookieMaxAge)),
     Set(RefreshCookie, refreshToken, AuthCookieOptions(env, RefreshCookieMaxAge))]
  }

  /** The two `res.clearCookie` calls of `clearAuthCookies`. */
  function ClearAuthCookieOps(): seq<CookieOp>
  {
    [Clear(AccessCookie), Clear(RefreshCookie)]
  }

  /** `setAuthCookies(res, accessToken, refreshToken)`. */
  method SetAuthCookies(res: HttpResponse, env: Env, accessToken: string, refreshToken: string)
    modifies res
    ensures res.cookieOps == old(res.cookieOps) + AuthCookieOps(env, accessToken, refreshToken)
    ensures res.statusCode == old(res.statusCode) && res.body == old(res.body)
  {
    res.Cookie(AccessCookie, accessToken, AuthCookieOptions(env, AccessCookieMaxAge));
    res.Cookie(RefreshCookie, refreshToken, AuthCookieOptions(env, RefreshCookieMaxAge));
  }

  /** `clearAuthCookies(res)`. */
  method ClearAuthCookies(res: HttpResponse)
    modifies res
    ensures res.cookieOps == old(res.cookieOps) + ClearAuthCookieOps()
    ensures res.statusCode == old(res.statusCode) && res.body == old(res.body)
  {
    res.ClearCookie(AccessCookie);
    res.ClearCookie(RefreshCookie);
  }

  /**
   * After `setAuthCookies` the client holds both cookies, `httpOnly` and
   * `sameSite=strict`, secure exactly in production, living 900000 and
   * 604800000 ms; every other cookie is as it was.
   */
  lemma AuthCookiesSet(env: Env, jar: map<string, Cookie>, accessToken: string, refreshToken: string)
    ensures var j := Jar(jar, AuthCookieOps(env, accessToken, refreshToken));
      && j.Keys == jar.Keys + {"accessToken", "refreshToken"}
      && j["accessToken"] == Cookie(accessToken, CookieOptions(true, Production(env), 900000, "strict"))
      && j["refreshToken"] == Cookie(refreshToken, CookieOptions(true, Production(env), 604800000, "strict"))
      && forall n :: n in jar && n != "accessToken" && n != "refreshToken" ==> j[n] == jar[n]
  {
    var ops := AuthCookieOps(env, accessToken, refreshToken);
    assert ops[..1][..0] == [] && ops[..|ops| - 1] == ops[..1];
    var first := jar[AccessCookie := Cookie(accessToken, AuthCookieOptions(env, AccessCookieMaxAge))];
    assert Jar(jar, ops[..1]) == first;
    var j := first[RefreshCookie := Cookie(refreshToken, AuthCookieOptions(env, RefreshCookieMaxAge))];
    assert Jar(jar, ops) == j;
    assert j.Keys == jar.Keys + {"accessToken", "refreshToken"};
  }

  /** `clearAuthCookies` removes exactly the two auth cookies. */
  lemma AuthCookiesCleared(jar: map<string, Cookie>)
    ensures Jar(jar, ClearAuthCookieOps()) == jar - {"accessToken", "refreshToken"}
  {
    var ops := ClearAuthCookieOps();
    assert ops[..1][..0] == [] && ops[..|ops| - 1] == ops[..1];
    assert jar - {"accessToken"} - {"refreshToken"} == jar - {"accessToken", "refreshToken"};
  }

  /** Logging in and then out leaves the client's other cookies exactly as they were. */
  lemma SetThenClear(env: Env, jar: map<string, Cookie>, accessToken: string, refreshToken: string)
    ensures Jar(jar, AuthCookieOps(env, accessToken, refreshToken) + ClearAuthCookieOps()) ==
      jar - {"accessToken", "refreshToken"}
  {
    JarAppend(jar, AuthCookieOps(env, accessToken, refreshToken), ClearAuthCookieOps());
    AuthCookiesSet(env, jar, accessToken, refreshToken);
    var j := Jar(jar, AuthCookieOps(env, accessToken, refreshToken));
    AuthCookiesCleared(j);
    assert j - {"accessToken", "refreshToken"} == jar - {"accessToken", "refreshToken"};
  }

  /** The two schemes the gate accepts. */
  datatype Scheme = Bearer | Internal

  /** What the gate reads of a request: the `Authorization` header and the parsed cookies, if any. */
  datatype AuthRequest = AuthRequest(authorization: Option<string>, cookies: Option<map<string, string>>)

  /** What the gate records on the request before `next()`: `req.user` or `req.internal`. */
  datatype Principal = AsUser(userId: Value) | AsService(service: Value)

  /** `next()` with the request annotated, or a 401 written to the response. */
  datatype GateDecision = Admit(principal: Principal) | Reject(reply: Reply)

  /** `const [prefix, value] = header.split(' ')`; `value` is absent when there is no space. */
  function HeaderParts(header: string): (string, Option<string>)
  {
    var parts := Split(header, ' ');
    (parts[0], if |parts| > 1 then Some(parts[1]) else None)
  }

  function SchemeOf(prefix: string): Option<Scheme>
  {
    if prefix == "Bearer" then Some(Bearer) else if prefix == "Internal" then Some(Internal) else None
  }

  /** A non-empty token from the header under a recognised prefix. */
  function HeaderCredential(authorization: Option<string>): Option<(Scheme, string)>
  {
    if authorization.None? || authorization.value == "" then None
    else
      var (prefix, value) := HeaderParts(authorization.value);
      if SchemeOf(prefix).Some? && value.Some? && value.value != "" then Some((SchemeOf(prefix).value, value.value))
      else None
  }

  /** A non-empty `accessToken` cookie. */
  function CookieToken(cookies: Option<map<string, string>>): Option<string>
  {
    if cookies.Some? && "accessToken" in cookies.value && cookies.value["accessToken"] != "" then
      Some(cookies.value["accessToken"])
    else None
  }

  /** The credential the gate goes on: the header's if it has one, else the cookie's as `Bearer`. */
  function ResolveCredential(req: AuthRequest): Option<(Scheme, string)>
  {
    if HeaderCredential(req.authorization).Some? then HeaderCredential(req.authorization)
    else if CookieToken(req.cookies).Some? then Some((Bearer, CookieToken(req.cookies).value))
    else None
  }

  /** The secret each scheme is verified with. */
  function SecretFor(scheme: Scheme): SecretKind
  {
    match scheme
    case Bearer => JwtSecret
    case Internal => InternalSecret
  }

  /**
   * `authenticateJWT(req, res, next)` at clock time `now`. The locals
   * `token` and `type` are assigned step by step as in the middleware.
   */
  method Authenticate(req: AuthRequest, crypto: Crypto, now: int) returns (d: GateDecision)
    ensures ResolveCredential(req).None? ==> d == Reject(Send(Error("Unauthorized", 401)))
    ensures ResolveCredential(req).Some? ==>
      var (scheme, token) := ResolveCredential(req).value;
      d == match Verify(crypto, token, SecretFor(scheme), now)
           case Err(_) => Reject(Send(Error("Invalid or expired token", 401)))
           case Ok(payload) =>
             Admit(if scheme == Bearer then AsUser(Field(payload, "userId")) else AsService(Field(payload, "service")))
  {
    var token: Option<string> := None;
    var scheme: Option<Scheme> := None;

    if req.authorization.Some? && req.authorization.value != "" {
      var (prefix, value) := HeaderParts(req.authorization.value);
      if prefix == "Bearer" || prefix == "Internal" {
        scheme := SchemeOf(prefix);
        token := value;
      }
    }

    if (token.None? || token.value == "") && CookieToken(req.cookies).Some? {
      scheme := Some(Bearer);
      token := CookieToken(req.cookies);
    }

    if token.None? || token.value == "" {
      return Reject(Send(Error("Unauthorized", 401)));
    }

    if scheme == Some(Bearer) {
      var decoded := Verify(crypto, token.value, JwtSecret, now);
      if decoded.Err? {
        return Reject(Send(Error("Invalid or expired token", 401)));
      }
      d := Admit(AsUser(Field(decoded.value, "userId")));
    } else if scheme == Some(Internal) {
      var decoded := Verify(crypto, token.value, InternalSecret, now);
      if decoded.Err? {
        return Reject(Send(Error("Invalid or expired token", 401)));
      }
      d := Admit(AsService(Field(decoded.value, "service")));
    } else {
      // A token is only ever set together with its scheme.
      assert false;
      d := Reject(Send(Error("Invalid auth type", 401)));
    }
  }

  /** The `Internal` scheme only comes from the header: a cookie is always taken as `Bearer`. */
  lemma InternalOnlyFromHeader(req: AuthRequest)
    requires ResolveCredential(req).Some? && ResolveCredential(req).value.0 == Internal
    ensures req.authorization.Some? && HeaderParts(req.authorization.value).0 == "Internal"
    ensures CookieToken(req.cookies).Some? ==> ResolveCredential(req) != Some((Bearer, CookieToken(req.cookies).value))
  {
  }

  /** A header credential takes precedence: whatever the cookies are, the outcome is the same. */
  lemma HeaderTakesPrecedence(req: AuthRequest, cookies: Option<map<string, string>>)
    requires HeaderCredential(req.authorization).Some?
    ensures ResolveCredential(req.(cookies := cookies)) == ResolveCredential(req) == HeaderCredential(req.authorization)
  {
  }

  /** A header under another prefix is ignored: the request is judged as if it had no header. */
  lemma OtherPrefixIgnored(req: AuthRequest)
    requires req.authorization.Some? && SchemeOf(HeaderParts(req.authorization.value).0).None?
    ensures ResolveCredential(req) == ResolveCredential(req.(authorization := None))
  {
  }

  /** `Authorization: Bearer <t>` with a token free of spaces yields exactly that token. */
  lemma {:induction false} BearerHeaderParsed(token: string, cookies: Option<map<string, string>>)
    requires token != "" && ' ' !in token
    ensures ResolveCredential(AuthRequest(Some("Bearer " + token), cookies)) == Some((Bearer, token))
  {
    assert "Bearer " + token == "Bearer" + " " + token;
    HeaderSplits("Bearer", token);
  }

  /**
   * The header the HTTP client attaches to an internal call passes this
   * gate as that service until the token's five minutes are up, provided
   * the signer's compact form has no spaces.
   */
  lemma {:induction false} InternalCallAdmitted(crypto: Crypto, serviceName: string, now: int, later: int,
                                                cookies: Option<map<string, string>>)
    requires RoundTrips(crypto, Token(map["service" := Str(serviceName)], InternalSecret, now + InternalTtl))
    requires ' ' !in Sign(crypto, map["service" := Str(serviceName)], InternalSecret, InternalTtl, now)
    requires later < now + InternalTtl
    ensures var token := Sign(crypto, map["service" := Str(serviceName)], InternalSecret, InternalTtl, now);
      && ResolveCredential(AuthRequest(Some("Internal " + token), cookies)) == Some((Internal, token))
      && Verify(crypto, token, SecretFor(Internal), later) == Ok(map["service" := Str(serviceName)])
  {
    var token := Sign(crypto, map["service" := Str(serviceName)], InternalSecret, InternalTtl, now);
    assert "Internal " + token == "Internal" + " " + token;
    HeaderSplits("Internal", token);
    VerifySigned(crypto, map["service" := Str(serviceName)], InternalSecret, InternalSecret, InternalTtl, now, later);
  }

  /** `"<prefix> <token>".split(' ')` is `[prefix, token]` when neither holds a space. */
  lemma {:induction false} HeaderSplits(prefix: string, token: string)
    requires ' ' !in prefix && ' ' !in token
    ensures HeaderParts(prefix + " " + token) == (prefix, Some(token))
  {
    assert prefix + " " + token == prefix + [' '] + token;
    SplitAfterPart(prefix, token, ' ');
    SplitWithoutSeparator(token, ' ');
  }
}
