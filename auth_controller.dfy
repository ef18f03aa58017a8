/**
 * POST /api/v1/auth/login as seen from outside: the `@Valid` binding runs
 * first, then AuthService.login; a success is wrapped in
 * `ApiResponse.success(response, "로그인에 성공했습니다.")` with 200 OK, and
 * every exception goes through the global exception handler.
 */
module AuthController {
  import opened Wrappers
  import opened JavaLang
  import opened ErrorCodes
  import opened Exceptions
  import opened ErrorResponses
  import opened GlobalExceptionHandler
  import opened ApiResponses
  import opened JwtTokens
  import opened Users
  import opened LoginRequests
  import opened AuthService

  const LoginSucceeded: string := "로그인에 성공했습니다."

  /** The reply: 200 with the success envelope, or what the exception handler built. */
  datatype LoginReply = Ok(body: ApiResponse<LoginResponse>) | Rejected(handled: Handled) {
    function Status(): HttpStatus {
      if Ok? then OK else handled.status
    }
    predicate SuccessFlag() {
      if Ok? then body.success else handled.body.success
    }
  }

  function LoginEndpoint(request: LoginRequest, isEmail: string -> bool, accounts: map<string, User>,
                         matches: (string, string) -> bool, issue: User -> Result<Token, AuthException>,
                         expiresIn: Long): (r: LoginReply)
    ensures r.Ok? <==> IsValid(request, isEmail) && Login(request, accounts, matches, issue, expiresIn).Success?
    ensures r.Ok? ==> r.body == SuccessOf(Login(request, accounts, matches, issue, expiresIn).value, LoginSucceeded)
  {
    var violations := Validate(request, isEmail);
    if violations != [] then Rejected(Handle(MethodArgumentNotValid(violations)))
    else
      match Login(request, accounts, matches, issue, expiresIn)
      case Success(response) => Ok(SuccessOf(response, LoginSucceeded))
      case Failure(e) => Rejected(Handle(Auth(e)))
  }

  /** The reply is 200 exactly when its body's success flag is true. */
  lemma {:induction false} StatusAgreesWithSuccessFlag(request: LoginRequest, isEmail: string -> bool, accounts: map<string, User>,
                                                       matches: (string, string) -> bool, issue: User -> Result<Token, AuthException>,
                                                       expiresIn: Long)
    ensures var r := LoginEndpoint(request, isEmail, accounts, matches, issue, expiresIn);
      r.Status() == OK <==> r.SuccessFlag()
  {
    var violations := Validate(request, isEmail);
    if violations != [] {
      var t := MethodArgumentNotValid(violations);
      assert LoginEndpoint(request, isEmail, accounts, matches, issue, expiresIn) == Rejected(Handle(t));
      StatusIsError(SurfacedCode(t));
    } else {
      match Login(request, accounts, matches, issue, expiresIn)
      case Success(response) =>
      case Failure(e) =>
        assert LoginEndpoint(request, isEmail, accounts, matches, issue, expiresIn) == Rejected(Handle(Auth(e)));
        StatusIsError(e.errorCode);
    }
  }

  /**
   * A request that violates any constraint is answered 400 with VALIDATION_001
   * and its field errors, before and regardless of the login service.
   */
  lemma {:induction false} InvalidRequestRejectedBeforeLogin(request: LoginRequest, isEmail: string -> bool,
                                                             a1: map<string, User>, m1: (string, string) -> bool,
                                                             i1: User -> Result<Token, AuthException>, x1: Long,
                                                             a2: map<string, User>, m2: (string, string) -> bool,
                                                             i2: User -> Result<Token, AuthException>, x2: Long)
    requires !IsValid(request, isEmail)
    ensures var r := LoginEndpoint(request, isEmail, a1, m1, i1, x1);
      && r == LoginEndpoint(request, isEmail, a2, m2, i2, x2)
      && r == Rejected(Handle(MethodArgumentNotValid(Validate(request, isEmail))))
      && r.Status().Value() == 400
      && Reports(r.handled.body, VALIDATION_001)
      && r.handled.body.error.details.value.errors == Some(ToFieldErrors(Validate(request, isEmail)))
  {
    assert Validate(request, isEmail) != [];
  }

  /** A login failure is answered with its error code's status and code: 401 for AUTH_002/003/004. */
  lemma {:induction false} LoginFailureReply(request: LoginRequest, isEmail: string -> bool, accounts: map<string, User>,
                                             matches: (string, string) -> bool, issue: User -> Result<Token, AuthException>,
                                             expiresIn: Long)
    requires IsValid(request, isEmail)
    requires Login(request, accounts, matches, issue, expiresIn).Failure?
    ensures var e := Login(request, accounts, matches, issue, expiresIn).error;
      var r := LoginEndpoint(request, isEmail, accounts, matches, issue, expiresIn);
      && r == Rejected(Handle(Auth(e)))
      && r.Status() == Status(e.errorCode)
      && Reports(r.handled.body, e.errorCode)
      && (e.errorCode in {AUTH_002, AUTH_003, AUTH_004} ==> r.Status().Value() == 401)
  {
    var e := Login(request, accounts, matches, issue, expiresIn).error;
    StatusFollowsFamily(e.errorCode);
  }

  /**
   * A valid request for an active account with the right password, whose token
   * cannot be generated (the account has no id), is answered 500 with SYSTEM_003:
   * the provider's exception passes through the service unchanged.
   */
  lemma {:induction false} TokenFailureAnswered(request: LoginRequest, isEmail: string -> bool, accounts: map<string, User>,
                                                matches: (string, string) -> bool, p: JwtTokenProvider, now: Long)
    requires IsValid(request, isEmail)
    requires var key := NormalizeEmail(request.email.value);
      && key in accounts && accounts[key].status == ACTIVE
      && matches(request.password.value, accounts[key].password)
      && accounts[key].id.None?
    ensures LoginEndpoint(request, isEmail, accounts, matches, ProviderIssuer(p, now), p.GetExpirationTimeInSeconds())
         == Rejected(Handled(INTERNAL_SERVER_ERROR, Of(SYSTEM_003)))
  {
    var user := accounts[NormalizeEmail(request.email.value)];
    var e := p.GenerateToken(user, now).error;
    assert ProviderIssuer(p, now)(user) == Failure(e);
    assert Login(request, accounts, matches, ProviderIssuer(p, now), p.GetExpirationTimeInSeconds()) == Failure(e);
    assert e == WithCause(SYSTEM_003, e.cause.value);
    TokenGenerationFailureSurfaces(e.cause.value);
  }
}
