/**
 * JwtTokenProvider: issues and parses signed tokens.
 *
 * Signing is symbolic: a token signed with a key is the value `Signed(key,
 * claims)`, and anything else the parser may be handed is `Garbage`. Verifying
 * with a key therefore yields the claims exactly when the token was signed with
 * that key; this is the signature library's guarantee, taken as the meaning of
 * a token. Times are `long` milliseconds since the epoch; "now" is a parameter.
 * A token is unexpired while now < exp, as section 4.1.4 of RFC 7519 requires.
 */
module JwtTokens {
  import opened Wrappers
  import opened JavaLang
  import opened ErrorCodes
  import opened Exceptions
  import opened Users

  /** An HMAC key, known by the secret it was made from. */
  datatype Key = Key(secret: string)

  datatype Claims = Claims(subject: string, email: string, role: string, issuedAt: Long, expiration: Long)

  datatype Token = Signed(key: Key, claims: Claims) | Garbage(text: string)

  /** `Keys.hmacShaKeyFor(secret.getBytes(UTF_8))`. */
  function KeyFor(secret: string): Key {
    Key(secret)
  }

  /** Signature verification: the claims, exactly when `token` was signed with `key`. */
  function Verify(key: Key, token: Token): (r: Option<Claims>)
    ensures r.Some? <==> token.Signed? && token.key == key
    ensures r.Some? ==> r.value == token.claims
  {
    if token.Signed? && token.key == key then Some(token.claims) else None
  }

  /** Verifying with the signing key returns the claims; with any other key it fails. */
  lemma SignThenVerify(key: Key, other: Key, claims: Claims)
    requires other != key
    ensures Verify(key, Signed(key, claims)) == Some(claims)
    ensures Verify(other, Signed(key, claims)) == None
  {
  }

  /** Section 4.1.4 of RFC 7519: the current time must be before `exp`. */
  predicate Unexpired(claims: Claims, now: Long) { now < claims.expiration }

  class JwtTokenProvider {
    /** The key `init` derives once from `jwt.secret`, used for signing and for verifying. */
    const secretKey: Key
    /** `jwt.expiration`: the token lifetime in milliseconds. */
    const expirationTime: Long

    /** The bean's construction followed by `init`. */
    constructor(secret: string, lifetime: Long)
      ensures secretKey == KeyFor(secret) && expirationTime == lifetime
    {
      secretKey := KeyFor(secret);
      expirationTime := lifetime;
    }

    /**
     * `generateToken(user)` at time `now`. `user.getId().toString()` throws on a
     * null id, which the catch-all turns into AuthException(SYSTEM_003).
     */
    function GenerateToken(user: User, now: Long): (r: Result<Token, AuthException>)
      ensures r.Failure? <==> user.id.None?
      ensures r.Failure? ==> r.error.errorCode == SYSTEM_003 && r.error.message == Message(SYSTEM_003) && r.error.cause.Some?
      ensures r.Success? ==>
        && Verify(secretKey, r.value).Some?
        && var c := Verify(secretKey, r.value).value;
        && c.subject == LongToString(user.id.value)
        && ParseLong(c.subject) == user.id
        && c.email == user.email
        && c.role == user.role.name
        && c.issuedAt == now
        && c.expiration == WrapLong(now + expirationTime)
    {
      match user.id
      case None => Failure(WithCause(SYSTEM_003, Cause("NullPointerException")))
      case Some(id) =>
        ParseLongOfLongToString(id);
        Success(Signed(secretKey, Claims(LongToString(id), user.email, user.role.name, now, WrapLong(now + expirationTime))))
    }

    /**
     * `parseToken(token)` at time `now`: the claims, or AUTH_005 for a token
     * whose signature verifies but which has expired, or AUTH_006 for any other
     * verification failure (wrong key, malformed).
     */
    function ParseToken(token: Token, now: Long): (r: Result<Claims, AuthException>)
      ensures r.Success? <==> Verify(secretKey, token).Some? && Unexpired(token.claims, now)
      ensures r.Success? ==> Verify(secretKey, token) == Some(r.value)
      ensures r == Failure(OfCode(AUTH_005)) <==> Verify(secretKey, token).Some? && !Unexpired(token.claims, now)
      ensures r == Failure(OfCode(AUTH_006)) <==> Verify(secretKey, token).None?
    {
      match Verify(secretKey, token)
      case None => Failure(OfCode(AUTH_006))
      case Some(claims) => if Unexpired(claims, now) then Success(claims) else Failure(OfCode(AUTH_005))
    }

    /**
     * `getUserIdFromToken(token)`: `Long.parseLong` of the subject. Its
     * NumberFormatException is an IllegalArgumentException.
     */
    function GetUserIdFromToken(token: Token, now: Long): (r: Result<Long, Thrown>)
      ensures r.Success? ==> ParseToken(token, now).Success? && ParseLong(ParseToken(token, now).value.subject) == Some(r.value)
      ensures ParseToken(token, now).Failure? ==> r == Failure(Auth(ParseToken(token, now).error))
      ensures ParseToken(token, now).Success? && ParseLong(ParseToken(token, now).value.subject).None? ==>
        r.Failure? && r.error.IllegalArgument?
      ensures ParseToken(token, now).Success? && ParseLong(ParseToken(token, now).value.subject).Some? ==>
        r == Success(ParseLong(ParseToken(token, now).value.subject).value)
    {
      match ParseToken(token, now)
      case Failure(e) => Failure(Auth(e))
      case Success(claims) =>
        match ParseLong(claims.subject)
        case None => Failure(IllegalArgument("For input string: \"" + claims.subject + "\""))
        case Some(id) => Success(id)
    }

    /** `getEmailFromToken(token)`: the "email" claim. */
    function GetEmailFromToken(token: Token, now: Long): (r: Result<string, AuthException>)
      ensures r.Success? <==> ParseToken(token, now).Success?
      ensures r.Success? ==> r.value == ParseToken(token, now).value.email
      ensures r.Failure? ==> r.error == ParseToken(token, now).error
    {
      match ParseToken(token, now)
      case Failure(e) => Failure(e)
      case Success(claims) => Success(claims.email)
    }

    /** `validateToken(token)`: true, or the parser's exception rethrown; never false. */
    function ValidateToken(token: Token, now: Long): (r: Result<bool, AuthException>)
      ensures r.Success? ==> r.value
      ensures r.Success? <==> ParseToken(token, now).Success?
      ensures r.Failure? ==> r.error == ParseToken(token, now).error
    {
      match ParseToken(token, now)
      case Failure(e) => Failure(e)
      case Success(_) => Success(true)
    }

    /** `getExpirationTimeInSeconds()`: the lifetime in whole seconds, truncated toward zero. */
    function GetExpirationTimeInSeconds(): (seconds: Long)
      ensures 0 <= expirationTime ==> 0 <= seconds && 1000 * seconds <= expirationTime < 1000 * seconds + 1000
      ensures expirationTime < 0 ==> seconds <= 0 && 1000 * seconds - 1000 < expirationTime <= 1000 * seconds
    {
      TruncDivBy1000(expirationTime)
    }
  }

  /** The lifetime neither wraps around nor is empty. */
  predicate LifetimeFits(p: JwtTokenProvider, now: Long) {
    0 < p.expirationTime && now + p.expirationTime <= MaxLong
  }

  /** Within its lifetime a generated token gives back the user's id. */
  lemma {:induction false} UserIdRoundTrip(p: JwtTokenProvider, user: User, now: Long, at: Long)
    requires user.id.Some? && LifetimeFits(p, now)
    requires now <= at < now + p.expirationTime
    ensures p.GenerateToken(user, now).Success?
    ensures p.GetUserIdFromToken(p.GenerateToken(user, now).value, at) == Success(user.id.value)
  {
    var t := p.GenerateToken(user, now).value;
    assert p.ParseToken(t, at).Success?;
  }

  /** Within its lifetime a generated token gives back the user's email. */
  lemma {:induction false} EmailRoundTrip(p: JwtTokenProvider, user: User, now: Long, at: Long)
    requires user.id.Some? && LifetimeFits(p, now)
    requires now <= at < now + p.expirationTime
    ensures p.GenerateToken(user, now).Success?
    ensures p.GetEmailFromToken(p.GenerateToken(user, now).value, at) == Success(user.email)
    ensures p.ValidateToken(p.GenerateToken(user, now).value, at) == Success(true)
  {
    var t := p.GenerateToken(user, now).value;
    assert p.ParseToken(t, at).Success?;
  }

  /** From issued-at + lifetime on, a generated token is expired (AUTH_005), never invalid. */
  lemma {:induction false} ExpiredAfterLifetime(p: JwtTokenProvider, user: User, now: Long, at: Long)
    requires user.id.Some? && LifetimeFits(p, now)
    requires now + p.expirationTime <= at
    ensures p.GenerateToken(user, now).Success?
    ensures p.ParseToken(p.GenerateToken(user, now).value, at) == Failure(OfCode(AUTH_005))
    ensures p.GetUserIdFromToken(p.GenerateToken(user, now).value, at) == Failure(Auth(OfCode(AUTH_005)))
  {
    var t := p.GenerateToken(user, now).value;
    assert Verify(p.secretKey, t).Some?;
  }

  /**
   * A token not signed with the provider's key (tampered, malformed, or from a
   * provider with another secret) is invalid at every time, never expired.
   */
  lemma ForeignTokenInvalid(p: JwtTokenProvider, token: Token, now: Long)
    requires !(token.Signed? && token.key == p.secretKey)
    ensures p.ParseToken(token, now) == Failure(OfCode(AUTH_006))
    ensures p.ValidateToken(token, now) == Failure(OfCode(AUTH_006))
  {
  }

  /** A token issued by a provider with another secret is invalid here. */
  lemma {:induction false} OtherSecretInvalid(p: JwtTokenProvider, q: JwtTokenProvider, user: User, now: Long, at: Long)
    requires p.secretKey != q.secretKey
    requires q.GenerateToken(user, now).Success?
    ensures p.ParseToken(q.GenerateToken(user, now).value, at) == Failure(OfCode(AUTH_006))
  {
    var token := q.GenerateToken(user, now).value;
    assert Verify(q.secretKey, token).Some?;
    ForeignTokenInvalid(p, token, at);
  }

  /** AUTH_005 is only ever reported for a token that verifies with the provider's own key. */
  lemma ExpiredOnlyIfGenuine(p: JwtTokenProvider, token: Token, now: Long)
    requires p.ParseToken(token, now) == Failure(OfCode(AUTH_005))
    ensures token.Signed? && token.key == p.secretKey && token.claims.expiration <= now
  {
  }

  /** The default lifetime of 24 hours (86400000 ms) is reported as 86400 seconds. */
  lemma DayLifetimeInSeconds(p: JwtTokenProvider)
    requires p.expirationTime == 86_400_000
    ensures p.GetExpirationTimeInSeconds() == 86_400
  {
  }
}
