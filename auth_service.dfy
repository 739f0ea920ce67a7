/**
 * The auth service (`AuthService`): registration and login go through the
 * user service over internal HTTP calls, and both end by issuing an access
 * token and a refresh token for the user's id; refreshing trades a valid
 * refresh token for a new pair. The request bodies have passed the route's
 * schema, so the credentials arrive as strings.
 */
module AuthService {
  import opened Js
  import opened Jwt
  import opened ServiceRegistry
  import opened HttpClient

  /** The two tokens handed to a client. */
  datatype Tokens = Tokens(accessToken: string, refreshToken: string)

  /** `{user, accessToken, refreshToken}`. */
  datatype Session = Session(user: Value, tokens: Tokens)

  /** `generateAccessToken(payload)`: signed with JWT_SECRET, expiring in 15 minutes. */
  function GenerateAccessToken(crypto: Crypto, payload: Record, now: int): string
  {
    Sign(crypto, payload, JwtSecret, AccessTtl, now)
  }

  /** `generateRefreshToken(payload)`: signed with JWT_REFRESH_SECRET, expiring in 7 days. */
  function GenerateRefreshToken(crypto: Crypto, payload: Record, now: int): string
  {
    Sign(crypto, payload, RefreshSecret, RefreshTtl, now)
  }

  /** Both tokens over `{userId}`, as every issuing operation makes them. */
  function IssueTokens(crypto: Crypto, userId: Value, now: int): Tokens
  {
    Tokens(GenerateAccessToken(crypto, map["userId" := userId], now),
           GenerateRefreshToken(crypto, map["userId" := userId], now))
  }

  /**
   * The access token carries exactly `{userId}` and is accepted by the gate's
   * secret for 15 minutes; the refresh token carries the same payload under
   * the refresh secret for 7 days. Neither passes for the other.
   */
  lemma IssuedTokens(crypto: Crypto, userId: Value, now: int, later: int)
    requires RoundTrips(crypto, Token(map["userId" := userId], JwtSecret, now + AccessTtl))
    requires RoundTrips(crypto, Token(map["userId" := userId], RefreshSecret, now + RefreshTtl))
    ensures var t := IssueTokens(crypto, userId, now);
      && (Verify(crypto, t.accessToken, JwtSecret, later).Ok? <==> later < now + 900)
      && (Verify(crypto, t.refreshToken, RefreshSecret, later).Ok? <==> later < now + 604800)
      && (Verify(crypto, t.accessToken, JwtSecret, later).Ok? ==>
            Verify(crypto, t.accessToken, JwtSecret, later).value == map["userId" := userId])
      && (Verify(crypto, t.refreshToken, RefreshSecret, later).Ok? ==>
            Verify(crypto, t.refreshToken, RefreshSecret, later).value == map["userId" := userId])
      && Verify(crypto, t.accessToken, RefreshSecret, later).Err?
      && Verify(crypto, t.refreshToken, JwtSecret, later).Err?
  {
    VerifySigned(crypto, map["userId" := userId], JwtSecret, JwtSecret, AccessTtl, now, later);
    VerifySigned(crypto, map["userId" := userId], JwtSecret, RefreshSecret, AccessTtl, now, later);
    VerifySigned(crypto, map["userId" := userId], RefreshSecret, RefreshSecret, RefreshTtl, now, later);
    VerifySigned(crypto, map["userId" := userId], RefreshSecret, JwtSecret, RefreshTtl, now, later);
  }

  /** `delete userResponse.password`: only an object has fields to delete. */
  function StripPassword(user: Value): (r: Value)
    ensures r.Obj? <==> user.Obj?
    ensures !user.Obj? ==> r == user
    ensures user.Obj? ==>
      (forall k :: k in r.fields <==> k in user.fields && k != "password") &&
      (forall k :: k in r.fields ==> r.fields[k] == user.fields[k])
  {
    match user
    case Obj(m) => Obj(m - {"password"})
    case _ => user
  }

  /**
   * `user.toJSON ? user.toJSON() : user` on a value parsed from JSON: such a
   * value has no methods, so a truthy `toJSON` field can only fail to be called.
   */
  function ToJsonView(user: Value): (r: Result<Value>)
    ensures r.Ok? <==> !Truthy(Get(user, "toJSON"))
    ensures r.Ok? ==> r.value == user
  {
    if Truthy(Get(user, "toJSON")) then Err(Exception("TypeError", "user.toJSON is not a function", []))
    else Ok(user)
  }

  /** The response user and the tokens issued for `user.id`. */
  function SessionFor(crypto: Crypto, user: Value, now: int): (r: Result<Session>)
    ensures r.Ok? <==> ToJsonView(user).Ok?
    ensures r.Ok? ==> r.value.user == StripPassword(user)
    ensures r.Ok? ==> r.value.tokens == IssueTokens(crypto, Get(user, "id"), now)
  {
    var view :- ToJsonView(user);
    Ok(Session(StripPassword(view), IssueTokens(crypto, Get(user, "id"), now)))
  }

  /** The body `register` sends to `createUser`: the hash takes the password's place. */
  function NewUserData(email: string, hashedPassword: string, firstName: string, lastName: string): Value
  {
    Obj(map["email" := Str(email), "password" := Str(hashedPassword),
            "firstName" := Str(firstName), "lastName" := Str(lastName)])
  }

  /** The header every call made with `{internal: true}` carries. */
  function InternalHeaders(crypto: Crypto, serviceName: string, now: int): map<string, string>
  {
    map["Authorization" := "Internal " + Sign(crypto, map["service" := Str(serviceName)], InternalSecret, InternalTtl, now)]
  }

  /**
   * `register(email, password, firstName, lastName)`: `sent` is the call to
   * the user service and `transport` what becomes of it.
   */
  method Register(env: Env, crypto: Crypto, now: int, email: string, password: string,
                  firstName: string, lastName: string, transport: Transport)
    returns (sent: Option<HttpCall>, r: Result<Session>)
    ensures sent.Some?
    ensures sent.value.verb == POST
    ensures sent.value.url == UrlText(EnvVar(env, "USER_SERVICE_URL")) + "/api/users"
    ensures sent.value.data == NewUserData(email, crypto.hash(password), firstName, lastName)
    ensures sent.value.headers == InternalHeaders(crypto, "userService", now)
    ensures r == match Received(transport)
                 case Err(e) => Err(e)
                 case Ok(user) => SessionFor(crypto, user, now)
  {
    var hashedPassword := crypto.hash(password);
    assert GetServiceEndpoint(env, "userService", "createUser").Ok?;
    var user;
    sent, user := Request(env, crypto, now, "userService", "createUser", [],
                          NewUserData(email, hashedPassword, firstName, lastName), Options(None, true), transport);
    if user.Err? {
      return sent, Err(user.error);
    }
    r := SessionFor(crypto, user.value, now);
  }

  /**
   * The decision `login` makes on what the user service returned: only the
   * first user is considered; no user and a wrong password are both
   * "Invalid credentials"; a stored password that is not a string makes
   * `bcrypt.compare` throw.
   */
  function Authorise(crypto: Crypto, now: int, users: Value, password: string): (r: Result<Session>)
    ensures !Truthy(First(users)) ==> r == Err(PlainError("Invalid credentials"))
    ensures Truthy(First(users)) && !Get(First(users), "password").Str? ==>
      r == Err(PlainError("Illegal arguments: string, " + TypeOf(Get(First(users), "password"))))
    ensures Truthy(First(users)) && Get(First(users), "password").Str? ==>
      r == if crypto.compare(password, Get(First(users), "password").s) then SessionFor(crypto, First(users), now)
           else Err(PlainError("Invalid credentials"))
  {
    var user := First(users);
    if !Truthy(user) then Err(PlainError("Invalid credentials"))
    else
      var stored := Get(user, "password");
      if !stored.Str? then Err(PlainError("Illegal arguments: string, " + TypeOf(stored)))
      else if !crypto.compare(password, stored.s) then Err(PlainError("Invalid credentials"))
      else SessionFor(crypto, user, now)
  }

  /** A successful login is for the first user found, whose password matched; the response drops the password. */
  lemma LoginSucceeds(crypto: Crypto, now: int, users: Value, password: string)
    requires Authorise(crypto, now, users, password).Ok?
    ensures Truthy(First(users)) && Get(First(users), "password").Str?
    ensures crypto.compare(password, Get(First(users), "password").s)
    ensures Authorise(crypto, now, users, password).value.user.Obj? ==>
      "password" !in Authorise(crypto, now, users, password).value.user.fields
    ensures Authorise(crypto, now, users, password).value.tokens == IssueTokens(crypto, Get(First(users), "id"), now)
  {
  }

  /** `login(email, password)`. */
  method Login(env: Env, crypto: Crypto, now: int, email: string, password: string, transport: Transport)
    returns (sent: Option<HttpCall>, r: Result<Session>)
    ensures sent.Some?
    ensures sent.value.verb == GET
    ensures sent.value.url ==
      Substituted(UrlText(EnvVar(env, "USER_SERVICE_URL")) + "/api/users/by-email?email=:email", [("email", email)])
    ensures sent.value.data == Null
    ensures sent.value.headers == InternalHeaders(crypto, "userService", now)
    ensures r == match Received(transport)
                 case Err(e) => Err(e)
                 case Ok(users) => Authorise(crypto, now, users, password)
  {
    UserByEmailEndpoint(env);
    var users;
    sent, users := Request(env, crypto, now, "userService", "getUserByEmail", [("email", email)],
                           Null, Options(None, true), transport);
    if users.Err? {
      return sent, Err(users.error);
    }
    r := Authorise(crypto, now, users.value, password);
  }

  /** `refreshToken(refreshToken)`: a new pair for the `userId` the refresh token carries. */
  function RefreshToken(crypto: Crypto, now: int, refreshToken: string): (r: Result<Tokens>)
    ensures r.Ok? <==> Verify(crypto, refreshToken, RefreshSecret, now).Ok?
    ensures r.Err? ==> r.error == Verify(crypto, refreshToken, RefreshSecret, now).error
    ensures r.Ok? ==>
      r.value == IssueTokens(crypto, Field(Verify(crypto, refreshToken, RefreshSecret, now).value, "userId"), now)
  {
    var decoded :- Verify(crypto, refreshToken, RefreshSecret, now);
    Ok(IssueTokens(crypto, Field(decoded, "userId"), now))
  }

  /**
   * Refreshing a refresh token issued at `issued` works until seven days
   * later and yields a pair for the same user; an access token is refused.
   */
  lemma RefreshKeepsUser(crypto: Crypto, userId: Value, issued: int, now: int)
    requires RoundTrips(crypto, Token(map["userId" := userId], JwtSecret, issued + AccessTtl))
    requires RoundTrips(crypto, Token(map["userId" := userId], RefreshSecret, issued + RefreshTtl))
    ensures var t := IssueTokens(crypto, userId, issued);
      && (RefreshToken(crypto, now, t.refreshToken).Ok? <==> now < issued + RefreshTtl)
      && (RefreshToken(crypto, now, t.refreshToken).Ok? ==>
            RefreshToken(crypto, now, t.refreshToken).value == IssueTokens(crypto, userId, now))
      && RefreshToken(crypto, now, t.accessToken).Err?
  {
    IssuedTokens(crypto, userId, issued, now);
  }
}
