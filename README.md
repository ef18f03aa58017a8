# Login core of the ReAcademix backend, in Dafny

This project models the email/password login of the ReAcademix Spring backend.
A caller posts an email and a password. The request is validated, the email is
normalised, the account is looked up and must be ACTIVE, and the password is
checked against the stored hash. On success a signed JWT is issued and returned
with its lifetime and a public summary of the account. Each failing step of
`login` throws an `AuthException` carrying an `ErrorCode`. A request that fails
validation throws MethodArgumentNotValidException instead, and an unparsable
token subject throws an IllegalArgumentException. The global exception handler
turns each exception into an HTTP status and an `ErrorResponse` body.

Everything is sequential and deterministic once the outside world is passed in
as parameters:

- the clock ("now", in `long` milliseconds);
- the account store (a map from normalised email to `User`);
- the password encoder (`matches(raw, hash)`);
- the `@Email` pattern (`isEmail`);
- the token issuer (`User -> Result<Token, AuthException>`) and its lifetime in seconds.

Modules, one per source file:

- `ErrorCodes` (ErrorCode.java): the enum table of code, message and HTTP status.
- `Exceptions` (AuthException.java): `AuthException`, its three constructors, and the exception kinds the handler tells apart.
- `ErrorResponses` (ErrorResponse.java): the error body and its builders `of`, `of(details)` and `ofValidation`.
- `GlobalExceptionHandler`: the four handlers, as one function from exception kind to (status, body).
- `ApiResponses` (ApiResponse.java): the success envelope and its three `success` factories.
- `LoginRequests` (LoginRequestDto.java): the field constraints, as a function returning the list of field errors.
- `JwtTokens` (JwtTokenProvider.java): a class whose key and lifetime are constants fixed by the constructor (`init`). Its functions generate, parse and validate tokens.
- `AuthService`: `login` as a function returning a `Result`.
- `AuthController`: the endpoint. It runs validation, then login, then wraps the result or hands the exception to the handler.
- Helpers: `Wrappers` (Option, Result), `JavaLang` (the `long` range and wrap-around, truncating division, `toLowerCase`, `trim`, `Long.toString`, `Long.parseLong`), `Users` (the account entity).

Tokens are symbolic. A token signed with key `k` over claims `c` is the value
`Signed(k, c)`. Any other string handed to the parser is `Garbage(text)`.
Verification with key `k` returns `c` exactly when the token is `Signed(k, c)`.
This is the signature library's guarantee, taken as the meaning of a token.

Expiry follows section 4.1.4 of RFC 7519: a token is accepted while now < exp.
The signature library applies its own comparison; this boundary is an
assumption of the model.

Three facts about the code shape the model:

- "No such account" and "wrong password" are two codes, `AUTH_002` and `AUTH_003`. Their message and status are identical (ErrorCode.java:20-21).
- A token-generation failure is `AuthException(SYSTEM_003)`. The service passes it on unchanged, and the handler answers it with 500 and code `SYSTEM_003`, not the catch-all's `SYSTEM_001`.
- The token lifetime is configuration (`jwt.expiration`), which is not part of this model. It is a constructor parameter; the 24-hour value is used only in `DayLifetimeInSeconds` and the scenario lemmas.

## Model

| member | source | states |
|---|---|---|
| `ErrorCodes.Code` | src/main/java/com/reacademix/reacademix_backend/exception/ErrorCode.java:19-38 | each constant's code string equals the constant's own name |
| `ErrorCodes.Message` | src/main/java/com/reacademix/reacademix_backend/exception/ErrorCode.java:19-38 | the message column of the table, each constant's fixed Korean text; what clients can tell apart by it is stated in `CredentialFailuresIndistinguishable` |
| `ErrorCodes.Status` | src/main/java/com/reacademix/reacademix_backend/exception/ErrorCode.java:19-38 | the HTTP status column of the table; its properties are stated in `StatusIsError` and `StatusFollowsFamily` |
| `ErrorCodes.StatusIsError` | src/main/java/com/reacademix/reacademix_backend/exception/ErrorCode.java:19-38 | every error code's status is 400 or above, never 200 |
| `ErrorCodes.StatusFollowsFamily` | src/main/java/com/reacademix/reacademix_backend/exception/ErrorCode.java:19-38 | the family prefix decides the status, both ways: AUTH_* is exactly the 401 codes, VALIDATION_* 400, RESOURCE_* 404, SYSTEM_* 500 |
| `ErrorCodes.CodesDistinct` | src/main/java/com/reacademix/reacademix_backend/exception/ErrorCode.java:19-38 | the 14 code strings are pairwise distinct |
| `ErrorCodes.CredentialFailuresIndistinguishable` | src/main/java/com/reacademix/reacademix_backend/exception/ErrorCode.java:20-24 | AUTH_002 and AUTH_003 differ in code but share message and status; AUTH_004's message differs from theirs; AUTH_005 and AUTH_006 differ in code and message |
| `ErrorCodes.AllErrorCodesListed` | src/main/java/com/reacademix/reacademix_backend/exception/ErrorCode.java:19-38 | the table has exactly 14 constants and lists every one |
| `Exceptions.OfCode` | src/main/java/com/reacademix/reacademix_backend/exception/AuthException.java:17-20 | stores the code and takes the code's message; no cause |
| `Exceptions.WithMessage` | src/main/java/com/reacademix/reacademix_backend/exception/AuthException.java:22-25 | stores the code but carries the caller's message |
| `Exceptions.WithCause` | src/main/java/com/reacademix/reacademix_backend/exception/AuthException.java:27-30 | stores the code, takes the code's message and keeps the cause |
| `Exceptions.ConstructorsAgree` | src/main/java/com/reacademix/reacademix_backend/exception/AuthException.java:15-30 | all three constructors store the same final errorCode; with the code's own message the two-argument form equals the one-argument form |
| `ErrorResponses.Of` | src/main/java/com/reacademix/reacademix_backend/exception/ErrorResponse.java:57-66 | success = false, the code's code string and fixed message, no details |
| `ErrorResponses.OfDetails` | src/main/java/com/reacademix/reacademix_backend/exception/ErrorResponse.java:75-85 | as `of(code)`, with the details carried unchanged |
| `ErrorResponses.OfValidation` | src/main/java/com/reacademix/reacademix_backend/exception/ErrorResponse.java:94-106 | as `of(code)`; details.errors is exactly the given list; details.field and details.rejectedValue are absent |
| `ErrorResponses.ReportsOneCode` | src/main/java/com/reacademix/reacademix_backend/exception/ErrorResponse.java:57-66 | a body reports at most one error code, so a client can decode it |
| `ErrorResponses.BuildersAgree` | src/main/java/com/reacademix/reacademix_backend/exception/ErrorResponse.java:57-106 | `of(code, null)` is `of(code)`, and `ofValidation` is `of(code, details)` with only `errors` set |
| `GlobalExceptionHandler.ToFieldErrors` | src/main/java/com/reacademix/reacademix_backend/exception/GlobalExceptionHandler.java:51-58 | the field errors map one to one: same length, same order, each (field, defaultMessage) |
| `GlobalExceptionHandler.Handle` | src/main/java/com/reacademix/reacademix_backend/exception/GlobalExceptionHandler.java:29-96 | the status is the status of the code the exception kind surfaces as, and the body reports that code; only a validation failure carries details, which hold its mapped field errors |
| `GlobalExceptionHandler.HandledStatuses` | src/main/java/com/reacademix/reacademix_backend/exception/GlobalExceptionHandler.java:29-96 | an AUTH_* exception gives 401; a validation failure or IllegalArgumentException gives 400 with VALIDATION_001; any other exception gives 500 with SYSTEM_001 |
| `GlobalExceptionHandler.AuthMessageNeverLeaks` | src/main/java/com/reacademix/reacademix_backend/exception/GlobalExceptionHandler.java:29-37 | the body carries the code's fixed message; a caller-supplied message and the cause never change the response |
| `GlobalExceptionHandler.InternalTextNeverLeaks` | src/main/java/com/reacademix/reacademix_backend/exception/GlobalExceptionHandler.java:72-96 | the text of an unclassified exception or an IllegalArgumentException never affects the response |
| `GlobalExceptionHandler.TokenGenerationFailureSurfaces` | src/main/java/com/reacademix/reacademix_backend/exception/GlobalExceptionHandler.java:29-37 | AuthException(SYSTEM_003, cause) is answered 500 with SYSTEM_003, not SYSTEM_001 |
| `GlobalExceptionHandler.CredentialFailuresLookAlike` | src/main/java/com/reacademix/reacademix_backend/exception/GlobalExceptionHandler.java:29-37 | AUTH_002 and AUTH_003 responses share status 401 and message and differ only in code; AUTH_004's message differs |
| `ApiResponses.SuccessOf` | src/main/java/com/reacademix/reacademix_backend/dto/response/ApiResponse.java:41-47 | success = true with the given data and message |
| `ApiResponses.SuccessOfData` | src/main/java/com/reacademix/reacademix_backend/dto/response/ApiResponse.java:56-61 | success = true, the data set, no message |
| `ApiResponses.SuccessOfMessage` | src/main/java/com/reacademix/reacademix_backend/dto/response/ApiResponse.java:70-75 | success = true, the message set, no data |
| `ApiResponses.FactoriesAgree` | src/main/java/com/reacademix/reacademix_backend/dto/response/ApiResponse.java:41-75 | the one-field factories are the two-field envelope with one field dropped; every factory yields success = true |
| `LoginRequests.NotBlank` | src/main/java/com/reacademix/reacademix_backend/dto/request/LoginRequestDto.java:24-29 | `@NotBlank`: present, and not empty once trimmed; `BlankValues` states which values fail it |
| `LoginRequests.EmailViolations` | src/main/java/com/reacademix/reacademix_backend/dto/request/LoginRequestDto.java:24-27 | the email has no error exactly when it is not blank, well formed and at most 255 characters; each of the three errors is present exactly when its constraint fails; nothing else is listed, and there is one entry per failed constraint |
| `LoginRequests.PasswordViolations` | src/main/java/com/reacademix/reacademix_backend/dto/request/LoginRequestDto.java:29-31 | the password has no error exactly when it is not blank and 8 to 128 characters long; each of the two errors is present exactly when its constraint fails; nothing else is listed, and there is one entry per failed constraint |
| `LoginRequests.Validate` | src/main/java/com/reacademix/reacademix_backend/dto/request/LoginRequestDto.java:24-30 | no field error exactly when every constraint holds; each constraint's error is present exactly when that constraint fails (email not blank, email format, email at most 255, password not blank, password 8 to 128); no other error is listed, and there is exactly one entry per failed constraint |
| `LoginRequests.ValidRequestHasCredentials` | src/main/java/com/reacademix/reacademix_backend/dto/request/LoginRequestDto.java:24-30 | a request without field errors carries an email and a password of at least 8 characters |
| `LoginRequests.BlankValues` | src/main/java/com/reacademix/reacademix_backend/dto/request/LoginRequestDto.java:24 | null, empty and whitespace-only values are blank |
| `LoginRequests.MissingEmailRejected` | src/main/java/com/reacademix/reacademix_backend/dto/request/LoginRequestDto.java:24 | a request without an email gets the "email required" error |
| `LoginRequests.InvalidEmailRejected` | src/main/java/com/reacademix/reacademix_backend/dto/request/LoginRequestDto.java:25 | any non-empty email without an '@', "invalid-email" among them, gets the format error, whatever the password, under any pattern that demands an '@' of a non-empty string |
| `LoginRequests.ShortPasswordRejected` | src/main/java/com/reacademix/reacademix_backend/dto/request/LoginRequestDto.java:30 | the password "short" gets the length error |
| `JavaLang.ParseLongOfLongToString` | src/main/java/com/reacademix/reacademix_backend/security/JwtTokenProvider.java:80-83 | `Long.parseLong` inverts `Long.toString` on every `long`, so a decimal subject gives the id back |
| `JwtTokens.Verify` | src/main/java/com/reacademix/reacademix_backend/security/JwtTokenProvider.java:120-126 | the claims exactly when the token was signed with the given key |
| `JwtTokens.Unexpired` | src/main/java/com/reacademix/reacademix_backend/security/JwtTokenProvider.java:127-133 | a token is accepted while now < exp, the boundary of section 4.1.4 of RFC 7519 |
| `JwtTokens.SignThenVerify` | src/main/java/com/reacademix/reacademix_backend/security/JwtTokenProvider.java:120-126 | verifying with the signing key returns the claims; verifying with any other key fails |
| `JwtTokens.JwtTokenProvider.constructor` | src/main/java/com/reacademix/reacademix_backend/security/JwtTokenProvider.java:42-45 | the key is derived once from the secret and, being a constant, is the one every later signing and verification uses |
| `JwtTokens.JwtTokenProvider.GenerateToken` | src/main/java/com/reacademix/reacademix_backend/security/JwtTokenProvider.java:54-71 | fails exactly when the id is null, and then with AuthException(SYSTEM_003) carrying the code's message and a cause; otherwise the token verifies under the provider's key with subject the id's decimal string (which parses back to the id), the user's email and role name, issued-at = now and expiry = now + lifetime in `long` arithmetic |
| `JwtTokens.JwtTokenProvider.ParseToken` | src/main/java/com/reacademix/reacademix_backend/security/JwtTokenProvider.java:120-134 | the claims exactly when the signature verifies and now < exp; AUTH_005 exactly when the signature verifies but the token expired; AUTH_006 exactly when verification fails |
| `JwtTokens.JwtTokenProvider.GetUserIdFromToken` | src/main/java/com/reacademix/reacademix_backend/security/JwtTokenProvider.java:80-83 | a verified, unexpired token whose subject parses gives exactly the parsed id; a parse failure propagates as the AuthException; an unparsable subject is an IllegalArgumentException |
| `JwtTokens.JwtTokenProvider.GetEmailFromToken` | src/main/java/com/reacademix/reacademix_backend/security/JwtTokenProvider.java:92-95 | the "email" claim of the verified claims, or the parser's AuthException |
| `JwtTokens.JwtTokenProvider.ValidateToken` | src/main/java/com/reacademix/reacademix_backend/security/JwtTokenProvider.java:104-111 | true exactly when the token parses, otherwise the parser's exception; never false |
| `JwtTokens.JwtTokenProvider.GetExpirationTimeInSeconds` | src/main/java/com/reacademix/reacademix_backend/security/JwtTokenProvider.java:141-143 | the lifetime in whole seconds, truncated toward zero, and independent of any token |
| `JwtTokens.UserIdRoundTrip` | src/main/java/com/reacademix/reacademix_backend/security/JwtTokenProvider.java:54-83 | within its lifetime, `getUserIdFromToken(generateToken(u))` is `u.id` |
| `JwtTokens.EmailRoundTrip` | src/main/java/com/reacademix/reacademix_backend/security/JwtTokenProvider.java:54-111 | within its lifetime, `getEmailFromToken(generateToken(u))` is `u.email` and the token validates |
| `JwtTokens.ExpiredAfterLifetime` | src/main/java/com/reacademix/reacademix_backend/security/JwtTokenProvider.java:120-134 | from issued-at + lifetime on, a generated token is rejected with AUTH_005, never AUTH_006 |
| `JwtTokens.ForeignTokenInvalid` | src/main/java/com/reacademix/reacademix_backend/security/JwtTokenProvider.java:120-134 | a token not signed with the provider's key is AUTH_006 at every time, never AUTH_005 |
| `JwtTokens.OtherSecretInvalid` | src/main/java/com/reacademix/reacademix_backend/security/JwtTokenProvider.java:120-134 | a token generated by a provider with another key is AUTH_006 here |
| `JwtTokens.ExpiredOnlyIfGenuine` | src/main/java/com/reacademix/reacademix_backend/security/JwtTokenProvider.java:127-133 | AUTH_005 is reported only for a token signed with the provider's own key whose expiry has passed |
| `JwtTokens.DayLifetimeInSeconds` | src/main/java/com/reacademix/reacademix_backend/security/JwtTokenProvider.java:141-143 | a lifetime of 86400000 ms is reported as 86400 seconds |
| `AuthService.NormalizeEmail` | src/main/java/com/reacademix/reacademix_backend/service/AuthService.java:52 | the lookup key has no ASCII upper-case letter and no blank at either end; `NormalizeEmailIsLoweredSlice` ties it to the email |
| `JavaLang.TrimIsSlice` | src/main/java/com/reacademix/reacademix_backend/service/AuthService.java:52 | `trim` returns the slice of its input that starts after the leading blanks; everything it cuts from either end is a character up to U+0020 |
| `AuthService.NormalizeEmailIsLoweredSlice` | src/main/java/com/reacademix/reacademix_backend/service/AuthService.java:52 | the key is a slice of the email, lower-cased, with only characters up to U+0020 cut from its two ends; nothing inside the email is dropped or merged |
| `AuthService.NormalizeEmailIdempotent` | src/main/java/com/reacademix/reacademix_backend/service/AuthService.java:52 | normalising a normalised email changes nothing |
| `AuthService.NormalizeEmailIgnoresCase` | src/main/java/com/reacademix/reacademix_backend/service/AuthService.java:52 | emails that differ only in letter case normalise alike |
| `AuthService.UpperCaseTestEmail` | src/main/java/com/reacademix/reacademix_backend/service/AuthService.java:52-56 | "TEST@ACADEMY.COM" and "test@academy.com" both look up "test@academy.com" |
| `AuthService.Login` | src/main/java/com/reacademix/reacademix_backend/service/AuthService.java:50-91 | no account gives AUTH_002; a non-ACTIVE account gives AUTH_004; an ACTIVE account with a mismatched raw password gives AUTH_003; success exactly when found, ACTIVE, matching and issued; then the issuer's token, "Bearer", the provider's seconds and id/email/name copied from the stored account; the only failures are AUTH_002/003/004 or the issuer's exception, and an issuer failure for a found, ACTIVE, matching account is passed on unchanged |
| `AuthService.Summary` | src/main/java/com/reacademix/reacademix_backend/service/AuthService.java:85-89 | the public summary of an account: its id, email and name, as `Login` copies them into the response |
| `AuthService.LoginCaseInsensitive` | src/main/java/com/reacademix/reacademix_backend/service/AuthService.java:52-56 | requests whose emails normalise alike get the same outcome |
| `AuthService.UnknownEmailSkipsChecks` | src/main/java/com/reacademix/reacademix_backend/service/AuthService.java:56-60 | without an account the outcome is AUTH_002 whatever the password encoder and the issuer would do |
| `AuthService.DisabledAccountIgnoresPassword` | src/main/java/com/reacademix/reacademix_backend/service/AuthService.java:63-66 | a non-ACTIVE account gives AUTH_004 whatever the password, the encoder and the issuer |
| `AuthService.MatcherSeesRawPassword` | src/main/java/com/reacademix/reacademix_backend/service/AuthService.java:69-72 | the encoder is consulted only on the raw password as sent and the stored hash |
| `AuthService.LoginTokenIdentifiesAccount` | src/main/java/com/reacademix/reacademix_backend/service/AuthService.java:75-90 | with the real provider, a successful login's token parses within its lifetime to the found account's id and email, which the summary also carries |
| `AuthService.LoginTokenExpires` | src/main/java/com/reacademix/reacademix_backend/service/AuthService.java:75-76 | from issued-at + lifetime on, a successful login's token is rejected with AUTH_005 |
| `AuthService.ScenarioSuccess` | src/main/java/com/reacademix/reacademix_backend/service/AuthService.java:52-90 | "TEST@ACADEMY.COM" with the right password on an ACTIVE account succeeds with "Bearer", 86400 seconds and the stored id, email and name |
| `AuthService.ScenarioWrongPassword` | src/main/java/com/reacademix/reacademix_backend/service/AuthService.java:69-72 | the wrong password on an ACTIVE account gives AUTH_003 |
| `AuthService.ScenarioDisabled` | src/main/java/com/reacademix/reacademix_backend/service/AuthService.java:63-66 | an INACTIVE or SUSPENDED account gives AUTH_004 even with the right password |
| `AuthService.NotFoundEmailNormalized` | src/main/java/com/reacademix/reacademix_backend/service/AuthService.java:52 | normalising "notfound@academy.com" leaves it unchanged |
| `AuthService.ScenarioUnknownEmail` | src/main/java/com/reacademix/reacademix_backend/service/AuthService.java:56-60 | "notfound@academy.com" gives AUTH_002 |
| `AuthController.LoginEndpoint` | src/main/java/com/reacademix/reacademix_backend/controller/AuthController.java:48-61 | the reply is 200 exactly when the request has no field error and login succeeds, and then its body is the success envelope holding the login response and the message "로그인에 성공했습니다." |
| `AuthController.StatusAgreesWithSuccessFlag` | src/main/java/com/reacademix/reacademix_backend/controller/AuthController.java:48-61 | every reply's HTTP status is 200 exactly when its body's success flag is true |
| `AuthController.InvalidRequestRejectedBeforeLogin` | src/main/java/com/reacademix/reacademix_backend/controller/AuthController.java:49-55 | any violation is answered 400 with VALIDATION_001 and the mapped field errors, whatever the account store, encoder and issuer |
| `AuthController.LoginFailureReply` | src/main/java/com/reacademix/reacademix_backend/exception/GlobalExceptionHandler.java:29-37 | a login failure is answered with its error code's status and body; 401 for AUTH_002/003/004 |
| `AuthController.TokenFailureAnswered` | src/main/java/com/reacademix/reacademix_backend/service/AuthService.java:75-76 | a valid request for an ACTIVE account with the right password whose token cannot be generated is answered 500 with SYSTEM_003 |

## Left out

- Signing internals: HMAC-SHA signing, the Base64url and JSON encoding of the token, and the key-length check of `Keys.hmacShaKeyFor` (a secret that is too short makes `init` fail).
- Byte-level tampering: flipping a byte of a token cannot be expressed on symbolic tokens. A tampered token is `Garbage`, or a token signed with another key.
- The signature library's own expiry comparison: the model assumes now < exp from section 4.1.4 of RFC 7519. It also keeps issued-at and expiry in milliseconds; the token format stores whole seconds.
- A null or blank token string: the library throws an IllegalArgumentException for it, which the handler answers 400 with VALIDATION_001. The model answers a blank token (`Garbage("")`) AUTH_006, like any token that does not verify.
- The UTF-8 encoding of the secret: a key is identified with the secret string it was made from.
- The clock: "now" is a parameter. The `timestamp` field of ErrorResponse is not modelled.
- `String.toLowerCase`: only the ASCII letters are mapped. Unicode case mapping and locale effects, such as the Turkish dotless i, are not modelled.
- String lengths: `@Size` counts UTF-16 code units in Java. The model counts characters, which differs only outside the Basic Multilingual Plane.
- `Long.parseLong`: the model accepts ASCII digits only. Java also accepts other Unicode decimal digits.
- The `@Email` pattern: it is the parameter `isEmail`.
- The order of field errors: Bean Validation does not fix it. `Validate` lists errors in declaration order, and its contract speaks only of which errors are present and how many there are.
- The password encoder: BCrypt with cost 10 and its constant-time comparison become the `matches` parameter.
- The account store: the repository, its persistence and `@Transactional` become an immutable map keyed by normalised email.
- Logging, and Jackson serialisation: absent JSON fields are `None`.
- HTTP routing and request parsing: a malformed JSON body never reaches the model.
- `AuthService.Login`: requires both fields of the request to be present, because `@Valid` rejects a missing one before the service runs. A direct call with a null email would throw a NullPointerException, which is not modelled.
- Null fields of a stored `User`: only a null id is modelled. It makes `generateToken` fail with SYSTEM_003. Email, name, role and status are never null here.
- The User, UserRole and UserStatus classes are not part of this model. A role is known by its constant's name.
- The `jwt.secret` and `jwt.expiration` configuration values are not part of this model. They are constructor parameters.
- The GitHub issue scripts under github-issues/ are not part of the service and are not modelled.
