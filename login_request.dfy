/**
 * LoginRequestDto and its Bean Validation constraints, re-expressed as a
 * function that lists the violated constraints as field errors. A null field
 * is `None`; as in Bean Validation, `@Email` and `@Size` accept null and only
 * `@NotBlank` rejects it. The `@Email` pattern is a parameter.
 */
module LoginRequests {
  import opened Wrappers
  import opened JavaLang
  import opened Exceptions

  datatype LoginRequest = LoginRequest(email: Option<string>, password: Option<string>)

  const EmailRequired: string := "이메일은 필수입니다."
  const EmailMalformed: string := "올바른 이메일 형식이 아닙니다."
  const EmailTooLong: string := "이메일은 최대 255자까지 입력 가능합니다."
  const PasswordRequired: string := "비밀번호는 필수입니다."
  const PasswordLength: string := "비밀번호는 8자 이상 128자 이하여야 합니다."

  const EmailMaxLength: nat := 255
  const PasswordMinLength: nat := 8
  const PasswordMaxLength: nat := 128

  /** `@NotBlank`: present, and something other than blanks once trimmed. */
  predicate NotBlank(v: Option<string>) { v.Some? && Trim(v.value) != [] }

  /** `@Email` with the pattern `isEmail`. */
  predicate EmailFormat(v: Option<string>, isEmail: string -> bool) { v.None? || isEmail(v.value) }

  /** `@Size(min, max)`. */
  predicate SizeWithin(v: Option<string>, min: nat, max: nat) { v.None? || min <= |v.value| <= max }

  /** Every constraint on the two fields holds. */
  predicate IsValid(r: LoginRequest, isEmail: string -> bool) {
    && NotBlank(r.email) && EmailFormat(r.email, isEmail) && SizeWithin(r.email, 0, EmailMaxLength)
    && NotBlank(r.password) && SizeWithin(r.password, PasswordMinLength, PasswordMaxLength)
  }

  function Check(holds: bool, field: string, message: string): (r: seq<BindingFieldError>)
    ensures holds <==> r == []
    ensures !holds ==> r == [BindingFieldError(field, message)]
  {
    if holds then [] else [BindingFieldError(field, message)]
  }

  /** One for a violated constraint, none for a satisfied one. */
  function Failed(holds: bool): (n: nat)
    ensures n <= 1 && (n == 0 <==> holds)
  {
    if holds then 0 else 1
  }

  /** The field errors of the email: `@NotBlank`, `@Email`, `@Size(max = 255)`. */
  function EmailViolations(email: Option<string>, isEmail: string -> bool): (violations: seq<BindingFieldError>)
    ensures violations == [] <==> NotBlank(email) && EmailFormat(email, isEmail) && SizeWithin(email, 0, EmailMaxLength)
    ensures BindingFieldError("email", EmailRequired) in violations <==> !NotBlank(email)
    ensures BindingFieldError("email", EmailMalformed) in violations <==> !EmailFormat(email, isEmail)
    ensures BindingFieldError("email", EmailTooLong) in violations <==> !SizeWithin(email, 0, EmailMaxLength)
    ensures forall v :: v in violations ==>
      v in [BindingFieldError("email", EmailRequired), BindingFieldError("email", EmailMalformed), BindingFieldError("email", EmailTooLong)]
    ensures |violations| == Failed(NotBlank(email)) + Failed(EmailFormat(email, isEmail)) + Failed(SizeWithin(email, 0, EmailMaxLength))
  {
    Check(NotBlank(email), "email", EmailRequired)
    + Check(EmailFormat(email, isEmail), "email", EmailMalformed)
    + Check(SizeWithin(email, 0, EmailMaxLength), "email", EmailTooLong)
  }

  /** The field errors of the password: `@NotBlank`, `@Size(min = 8, max = 128)`. */
  function PasswordViolations(password: Option<string>): (violations: seq<BindingFieldError>)
    ensures violations == [] <==> NotBlank(password) && SizeWithin(password, PasswordMinLength, PasswordMaxLength)
    ensures BindingFieldError("password", PasswordRequired) in violations <==> !NotBlank(password)
    ensures BindingFieldError("password", PasswordLength) in violations <==> !SizeWithin(password, PasswordMinLength, PasswordMaxLength)
    ensures forall v :: v in violations ==>
      v in [BindingFieldError("password", PasswordRequired), BindingFieldError("password", PasswordLength)]
    ensures |violations| == Failed(NotBlank(password)) + Failed(SizeWithin(password, PasswordMinLength, PasswordMaxLength))
  {
    Check(NotBlank(password), "password", PasswordRequired)
    + Check(SizeWithin(password, PasswordMinLength, PasswordMaxLength), "password", PasswordLength)
  }

  /** The field errors a `@Valid` binding of `r` produces, one per violated constraint. */
  function Validate(r: LoginRequest, isEmail: string -> bool): (violations: seq<BindingFieldError>)
    ensures violations == [] <==> IsValid(r, isEmail)
    ensures BindingFieldError("email", EmailRequired) in violations <==> !NotBlank(r.email)
    ensures BindingFieldError("email", EmailMalformed) in violations <==> !EmailFormat(r.email, isEmail)
    ensures BindingFieldError("email", EmailTooLong) in violations <==> !SizeWithin(r.email, 0, EmailMaxLength)
    ensures BindingFieldError("password", PasswordRequired) in violations <==> !NotBlank(r.password)
    ensures BindingFieldError("password", PasswordLength) in violations <==> !SizeWithin(r.password, PasswordMinLength, PasswordMaxLength)
    ensures forall v :: v in violations ==>
      v in [BindingFieldError("email", EmailRequired), BindingFieldError("email", EmailMalformed), BindingFieldError("email", EmailTooLong),
            BindingFieldError("password", PasswordRequired), BindingFieldError("password", PasswordLength)]
    ensures |violations| ==
      Failed(NotBlank(r.email)) + Failed(EmailFormat(r.email, isEmail)) + Failed(SizeWithin(r.email, 0, EmailMaxLength))
      + Failed(NotBlank(r.password)) + Failed(SizeWithin(r.password, PasswordMinLength, PasswordMaxLength))
  {
    EmailViolations(r.email, isEmail) + PasswordViolations(r.password)
  }

  /** A request that passes validation carries both an email and a password. */
  lemma ValidRequestHasCredentials(r: LoginRequest, isEmail: string -> bool)
    requires Validate(r, isEmail) == []
    ensures r.email.Some? && r.password.Some?
    ensures |r.password.value| >= PasswordMinLength
  {
  }

  /** Null, empty and whitespace-only values are all blank. */
  lemma BlankValues(s: string)
    requires forall i :: 0 <= i < |s| ==> IsTrimmable(s[i])
    ensures !NotBlank(None) && !NotBlank(Some(s))
  {
  }

  /** A request without an email is rejected. */
  lemma MissingEmailRejected(password: Option<string>, isEmail: string -> bool)
    ensures BindingFieldError("email", EmailRequired) in Validate(LoginRequest(None, password), isEmail)
  {
  }

  /**
   * A non-empty email without an '@', such as "invalid-email", gets the format
   * error, whatever the password, under any email pattern that demands an '@'.
   */
  lemma InvalidEmailRejected(email: string, password: Option<string>, isEmail: string -> bool)
    requires forall s :: |s| > 0 && isEmail(s) ==> '@' in s
    requires |email| > 0 && '@' !in email
    ensures BindingFieldError("email", EmailMalformed) in Validate(LoginRequest(Some(email), password), isEmail)
  {
    assert BindingFieldError("email", EmailMalformed) in EmailViolations(Some(email), isEmail);
  }

  /** "short" is a 5-character password, below the minimum of 8. */
  lemma ShortPasswordRejected(email: Option<string>, isEmail: string -> bool)
    ensures BindingFieldError("password", PasswordLength) in Validate(LoginRequest(email, Some("short")), isEmail)
  {
  }
}
