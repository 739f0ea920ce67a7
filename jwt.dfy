/**
 * Signed tokens and password hashing, with the libraries (`jsonwebtoken`,
 * `bcryptjs`) as uninterpreted functions. A token is abstractly its payload,
 * the secret that signed it and its expiry time in seconds; its wire form is
 * whatever string the library's encoder makes of it.
 */
module Jwt {
  import opened Js

  /** The three environment secrets: JWT_SECRET, JWT_REFRESH_SECRET and INTERNAL_SECRET. */
  datatype SecretKind = JwtSecret | RefreshSecret | InternalSecret

  datatype Token = Token(payload: Record, secret: SecretKind, expiresAt: int)

  /** The cryptographic libraries, as functions the model does not interpret. */
  datatype Crypto = Crypto(
    encode: Token -> string,           // the compact form `jwt.sign` returns
    decode: string -> Option<Token>,   // reading a compact form back; `None`: malformed
    hash: string -> string,            // `bcrypt.hash(password, 10)`
    compare: (string, string) -> bool) // `bcrypt.compare(password, hash)`

  /** Lifetimes in seconds: '15m', '7d' and '5m'. */
  const AccessTtl: nat := 15 * 60
  const RefreshTtl: nat := 7 * 24 * 60 * 60
  const InternalTtl: nat := 5 * 60

  /** `jwt.sign(payload, secret, {expiresIn})` at clock time `now`. */
  function Sign(crypto: Crypto, payload: Record, secret: SecretKind, ttl: nat, now: int): string
  {
    crypto.encode(Token(payload, secret, now + ttl))
  }

  /**
   * `jwt.verify(text, secret)` at clock time `now`: the decoded payload, or
   * the library's error. A token is expired once the clock reaches its expiry.
   */
  function Verify(crypto: Crypto, text: string, secret: SecretKind, now: int): (r: Result<Record>)
    ensures r.Ok? <==>
      text != "" && crypto.decode(text).Some? &&
      crypto.decode(text).value.secret == secret && now < crypto.decode(text).value.expiresAt
    ensures r.Ok? ==> r.value == crypto.decode(text).value.payload
    ensures r.Err? ==> r.error.name in {"JsonWebTokenError", "TokenExpiredError"}
  {
    if text == "" then Err(Exception("JsonWebTokenError", "jwt must be provided", []))
    else match crypto.decode(text)
      case None => Err(Exception("JsonWebTokenError", "jwt malformed", []))
      case Some(t) =>
        if t.secret != secret then Err(Exception("JsonWebTokenError", "invalid signature", []))
        else if now >= t.expiresAt then Err(Exception("TokenExpiredError", "jwt expired", []))
        else Ok(t.payload)
  }

  /** The library reads back the token it wrote, and never writes an empty string. */
  predicate RoundTrips(crypto: Crypto, t: Token)
  {
    crypto.decode(crypto.encode(t)) == Some(t) && crypto.encode(t) != ""
  }

  /**
   * A signed token verifies exactly under the secret that signed it, until
   * its lifetime has passed, and yields the payload it was signed over.
   */
  lemma VerifySigned(crypto: Crypto, payload: Record, signer: SecretKind, checker: SecretKind,
                     ttl: nat, now: int, later: int)
    requires RoundTrips(crypto, Token(payload, signer, now + ttl))
    ensures Verify(crypto, Sign(crypto, payload, signer, ttl, now), checker, later).Ok? <==>
      signer == checker && later < now + ttl
    ensures Verify(crypto, Sign(crypto, payload, signer, ttl, now), checker, later).Ok? ==>
      Verify(crypto, Sign(crypto, payload, signer, ttl, now), checker, later).value == payload
  {
  }
}
