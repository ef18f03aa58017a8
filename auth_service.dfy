/**
 * AuthService.login: normalise the email, look the account up, require it to
 * be ACTIVE, check the password, issue a token and build the response. Each
 * failing step throws an AuthException, here the `Failure` of the result.
 * The collaborators are parameters: the account store is a map from
 * normalised email to User, the password encoder's `matches(raw, hash)` is a
 * predicate, and the token provider is an issuer together with its lifetime
 * in seconds.
 */
module AuthService {
  import opened Wrappers
  import opened JavaLang
  import opened ErrorCodes
  import opened Exceptions
  import opened Users
  import opened JwtTokens
  import opened LoginRequests

  /** LoginResponseDto.UserInfo: the public summary of the account. */
  datatype UserInfo = UserInfo(userId: Option<Long>, email: string, name: string)

  /** LoginResponseDto. */
  datatype LoginResponse = LoginResponse(token: Token, tokenType: string, expiresIn: Long, user: UserInfo)

  const Bearer: string := "Bearer"

  /** `email.toLowerCase().trim()`: the key the account store is searched by. */
  function NormalizeEmail(email: string): (r: string)
    ensures NoUpperAscii(r) && IsTrimmed(r)
  {
    var lower := ToLowerCase(email);
    var r := Trim(lower);
    assert forall i :: 0 <= i < |r| ==> r[i] in lower;
    r
  }

  /**
   * The key is the email lower-cased, with only blanks cut from its two ends:
   * a slice of the email, lower-cased, and everything outside the slice is a
   * character up to U+0020. Nothing inside the email is dropped or merged.
   */
  lemma {:induction false} NormalizeEmailIsLoweredSlice(email: string)
    ensures var r := NormalizeEmail(email);
      exists lo :: (0 <= lo <= |email| - |r| && r == ToLowerCase(email[lo..lo + |r|])
                    && AllTrimmable(email[..lo]) && AllTrimmable(email[lo + |r|..]))
  {
    var lower := ToLowerCase(email);
    assert NormalizeEmail(email) == Trim(lower);
    TrimIsSlice(lower);
    var lo := LeadingBlanks(lower);
    LowerCaseAroundSlice(email, lo, lo + |Trim(lower)|);
  }

  /** Normalising a normalised email changes nothing. */
  lemma {:induction false} NormalizeEmailIdempotent(email: string)
    ensures NormalizeEmail(NormalizeEmail(email)) == NormalizeEmail(email)
  {
    var r := NormalizeEmail(email);
    ToLowerCaseLeavesLower(r);
    TrimLeavesTrimmed(r);
  }

  /** Emails that differ only in the case of their letters normalise alike. */
  lemma {:induction false} NormalizeEmailIgnoresCase(e1: string, e2: string)
    requires |e1| == |e2|
    requires forall i :: 0 <= i < |e1| ==> ToLowerChar(e1[i]) == ToLowerChar(e2[i])
    ensures NormalizeEmail(e1) == NormalizeEmail(e2)
  {
    assert ToLowerCase(e1) == ToLowerCase(e2);
  }

  lemma LowerCaseTestEmail()
    ensures ToLowerCase("TEST@ACADEMY.COM") == "test@academy.com"
    ensures ToLowerCase("test@academy.com") == "test@academy.com"
  {
    var e := "test@academy.com";
    assert NoUpperAscii(e);
    ToLowerCaseLeavesLower(e);
  }

  lemma TrimTestEmail()
    ensures Trim("test@academy.com") == "test@academy.com"
  {
    TrimLeavesTrimmed("test@academy.com");
  }

  /** The upper-case spelling of the test account's email reaches that account. */
  lemma UpperCaseTestEmail()
    ensures NormalizeEmail("TEST@ACADEMY.COM") == "test@academy.com"
    ensures NormalizeEmail("test@academy.com") == "test@academy.com"
  {
    LowerCaseTestEmail();
    TrimTestEmail();
  }

  /** The summary copies id, email and name from the stored account. */
  function Summary(user: User): UserInfo {
    UserInfo(user.id, user.email, user.name)
  }

  /**
   * `login(request)`. The request has passed `@Valid`, so both fields are present.
   * `issue` is `generateToken` and `expiresIn` is `getExpirationTimeInSeconds()`.
   */
  function Login(request: LoginRequest, accounts: map<string, User>, matches: (string, string) -> bool,
                 issue: User -> Result<Token, AuthException>, expiresIn: Long): (r: Result<LoginResponse, AuthException>)
    requires request.email.Some? && request.password.Some?
    ensures var key := NormalizeEmail(request.email.value);
      && (key !in accounts ==> r == Failure(OfCode(AUTH_002)))
      && (key in accounts && accounts[key].status != ACTIVE ==> r == Failure(OfCode(AUTH_004)))
      && ((key in accounts && accounts[key].status == ACTIVE && !matches(request.password.value, accounts[key].password))
          ==> r == Failure(OfCode(AUTH_003)))
    ensures var key := NormalizeEmail(request.email.value);
      r.Success? <==>
        && key in accounts && accounts[key].status == ACTIVE
        && matches(request.password.value, accounts[key].password)
        && issue(accounts[key]).Success?
    ensures var key := NormalizeEmail(request.email.value);
      r.Success? ==>
        && r.value.token == issue(accounts[key]).value
        && r.value.tokenType == "Bearer"
        && r.value.expiresIn == expiresIn
        && r.value.user.userId == accounts[key].id
        && r.value.user.email == accounts[key].email
        && r.value.user.name == accounts[key].name
    ensures var key := NormalizeEmail(request.email.value);
      r.Failure? ==>
        || r.error in {OfCode(AUTH_002), OfCode(AUTH_003), OfCode(AUTH_004)}
        || (key in accounts && issue(accounts[key]) == Failure(r.error))
    ensures var key := NormalizeEmail(request.email.value);
      (&& key in accounts && accounts[key].status == ACTIVE
       && matches(request.password.value, accounts[key].password)
       && issue(accounts[key]).Failure?)
      ==> r == Failure(issue(accounts[key]).error)
  {
    var email := NormalizeEmail(request.email.value);
    if email !in accounts then Failure(OfCode(AUTH_002))
    else
      var user := accounts[email];
      if user.status != ACTIVE then Failure(OfCode(AUTH_004))
      else if !matches(request.password.value, user.password) then Failure(OfCode(AUTH_003))
      else
        match issue(user)
        case Failure(e) => Failure(e)
        case Success(token) => Success(LoginResponse(token, Bearer, expiresIn, Summary(user)))
  }

  /** Requests whose emails normalise alike reach the same account and get the same outcome. */
  lemma LoginCaseInsensitive(e1: string, e2: string, password: string, accounts: map<string, User>,
                             matches: (string, string) -> bool, issue: User -> Result<Token, AuthException>, expiresIn: Long)
    requires NormalizeEmail(e1) == NormalizeEmail(e2)
    ensures Login(LoginRequest(Some(e1), Some(password)), accounts, matches, issue, expiresIn)
         == Login(LoginRequest(Some(e2), Some(password)), accounts, matches, issue, expiresIn)
  {
  }

  /**
   * Without an account for the normalised email the outcome is AUTH_002
   * whatever the password encoder and the token provider would do: neither is
   * consulted.
   */
  lemma UnknownEmailSkipsChecks(request: LoginRequest, accounts: map<string, User>,
                                m1: (string, string) -> bool, i1: User -> Result<Token, AuthException>, x1: Long,
                                m2: (string, string) -> bool, i2: User -> Result<Token, AuthException>, x2: Long)
    requires request.email.Some? && request.password.Some?
    requires NormalizeEmail(request.email.value) !in accounts
    ensures Login(request, accounts, m1, i1, x1) == Login(request, accounts, m2, i2, x2) == Failure(OfCode(AUTH_002))
  {
  }

  /**
   * A non-ACTIVE account gives AUTH_004 whatever the password and whatever the
   * password encoder would say: the status gate comes first.
   */
  lemma DisabledAccountIgnoresPassword(email: string, p1: string, p2: string, accounts: map<string, User>,
                                       m1: (string, string) -> bool, i1: User -> Result<Token, AuthException>, x1: Long,
                                       m2: (string, string) -> bool, i2: User -> Result<Token, AuthException>, x2: Long)
    requires NormalizeEmail(email) in accounts && accounts[NormalizeEmail(email)].status != ACTIVE
    ensures Login(LoginRequest(Some(email), Some(p1)), accounts, m1, i1, x1)
         == Login(LoginRequest(Some(email), Some(p2)), accounts, m2, i2, x2)
         == Failure(OfCode(AUTH_004))
  {
  }

  /**
   * The password encoder is asked about exactly one pair: the raw password as
   * sent (not normalised) and the stored hash. Two encoders that agree on that
   * pair give the same outcome.
   */
  lemma MatcherSeesRawPassword(request: LoginRequest, accounts: map<string, User>,
                               m1: (string, string) -> bool, m2: (string, string) -> bool,
                               issue: User -> Result<Token, AuthException>, expiresIn: Long)
    requires request.email.Some? && request.password.Some?
    requires var key := NormalizeEmail(request.email.value);
      key in accounts ==> m1(request.password.value, accounts[key].password) == m2(request.password.value, accounts[key].password)
    ensures Login(request, accounts, m1, issue, expiresIn) == Login(request, accounts, m2, issue, expiresIn)
  {
  }

  /** The issuer the service uses: the provider's `generateToken` at time `now`. */
  function ProviderIssuer(p: JwtTokenProvider, now: Long): User -> Result<Token, AuthException> {
    u => p.GenerateToken(u, now)
  }

  /** Login against a real token provider at time `now`. */
  function LoginWith(request: LoginRequest, accounts: map<string, User>, matches: (string, string) -> bool,
                     p: JwtTokenProvider, now: Long): Result<LoginResponse, AuthException>
    requires request.email.Some? && request.password.Some?
  {
    Login(request, accounts, matches, ProviderIssuer(p, now), p.GetExpirationTimeInSeconds())
  }

  /**
   * A successful login's token, parsed within its lifetime, names the account
   * that was found: its id and its email, which are also in the summary.
   */
  lemma {:induction false} LoginTokenIdentifiesAccount(request: LoginRequest, accounts: map<string, User>,
                                                       matches: (string, string) -> bool, p: JwtTokenProvider, now: Long, at: Long)
    requires request.email.Some? && request.password.Some?
    requires LifetimeFits(p, now) && now <= at < now + p.expirationTime
    requires LoginWith(request, accounts, matches, p, now).Success?
    ensures var r := LoginWith(request, accounts, matches, p, now).value;
      && r.user.userId.Some?
      && p.GetUserIdFromToken(r.token, at) == Success(r.user.userId.value)
      && p.GetEmailFromToken(r.token, at) == Success(r.user.email)
      && r.user == Summary(accounts[NormalizeEmail(request.email.value)])
  {
    var user := accounts[NormalizeEmail(request.email.value)];
    assert ProviderIssuer(p, now)(user) == p.GenerateToken(user, now);
    UserIdRoundTrip(p, user, now, at);
    EmailRoundTrip(p, user, now, at);
  }

  /** From issued-at + lifetime on, the token of a successful login is rejected as expired. */
  lemma {:induction false} LoginTokenExpires(request: LoginRequest, accounts: map<string, User>,
                                             matches: (string, string) -> bool, p: JwtTokenProvider, now: Long, at: Long)
    requires request.email.Some? && request.password.Some?
    requires LifetimeFits(p, now) && now + p.expirationTime <= at
    requires LoginWith(request, accounts, matches, p, now).Success?
    ensures p.ValidateToken(LoginWith(request, accounts, matches, p, now).value.token, at) == Failure(OfCode(AUTH_005))
  {
    var user := accounts[NormalizeEmail(request.email.value)];
    assert ProviderIssuer(p, now)(user) == p.GenerateToken(user, now);
    ExpiredAfterLifetime(p, user, now, at);
  }

  // ----- the scenarios of the service's tests -----

  const TestHash: string := "$2a$10$encodedPassword"

  function TestAccounts(status: UserStatus): map<string, User> {
    map["test@academy.com" := User(Some(1), "test@academy.com", TestHash, "테스트 사용자", UserRole("ADMIN"), status)]
  }

  /** A password encoder for which "SecurePass123!" is the password behind TestHash. */
  predicate TestMatches(raw: string, hash: string) {
    raw == "SecurePass123!" && hash == TestHash
  }

  /** Upper-case email, right password, ACTIVE: a Bearer token valid for 86400 seconds. */
  lemma ScenarioSuccess(p: JwtTokenProvider, now: Long)
    requires p.expirationTime == 86_400_000
    ensures var r := LoginWith(LoginRequest(Some("TEST@ACADEMY.COM"), Some("SecurePass123!")), TestAccounts(ACTIVE), TestMatches, p, now);
      && r.Success?
      && r.value.tokenType == "Bearer"
      && r.value.expiresIn == 86400
      && r.value.user == UserInfo(Some(1), "test@academy.com", "테스트 사용자")
  {
    UpperCaseTestEmail();
    DayLifetimeInSeconds(p);
    var user := TestAccounts(ACTIVE)["test@academy.com"];
    assert ProviderIssuer(p, now)(user) == p.GenerateToken(user, now);
  }

  /** Wrong password: AUTH_003. */
  lemma ScenarioWrongPassword(p: JwtTokenProvider, now: Long)
    ensures LoginWith(LoginRequest(Some("test@academy.com"), Some("WrongPassword!")), TestAccounts(ACTIVE), TestMatches, p, now)
         == Failure(OfCode(AUTH_003))
  {
    UpperCaseTestEmail();
  }

  /** Suspended or inactive account with the right password: AUTH_004. */
  lemma ScenarioDisabled(p: JwtTokenProvider, now: Long, status: UserStatus)
    requires status != ACTIVE
    ensures LoginWith(LoginRequest(Some("test@academy.com"), Some("SecurePass123!")), TestAccounts(status), TestMatches, p, now)
         == Failure(OfCode(AUTH_004))
  {
    UpperCaseTestEmail();
  }

  lemma NotFoundEmailNormalized()
    ensures NormalizeEmail("notfound@academy.com") == "notfound@academy.com"
  {
    var e := "notfound@academy.com";
    assert NoUpperAscii(e);
    ToLowerCaseLeavesLower(e);
    TrimLeavesTrimmed(e);
  }

  /** Unknown email: AUTH_002. */
  lemma ScenarioUnknownEmail(p: JwtTokenProvider, now: Long)
    ensures LoginWith(LoginRequest(Some("notfound@academy.com"), Some("SecurePass123!")), TestAccounts(ACTIVE), TestMatches, p, now)
         == Failure(OfCode(AUTH_002))
  {
    NotFoundEmailNormalized();
    assert "notfound@academy.com" !in TestAccounts(ACTIVE);
  }
}
