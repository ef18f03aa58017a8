/**
 * GlobalExceptionHandler: the four `@ExceptionHandler` methods as one
 * classification from the exception that escaped a controller to the HTTP
 * status and ErrorResponse sent back. Spring picks the handler declared for
 * the closest exception type, so AuthException never reaches the catch-all.
 */
module GlobalExceptionHandler {
  import opened Wrappers
  import opened ErrorCodes
  import opened Exceptions
  import opened ErrorResponses

  /** A `ResponseEntity<ErrorResponse>`. */
  datatype Handled = Handled(status: HttpStatus, body: ErrorResponse)

  /** The error code each exception kind surfaces as. */
  function SurfacedCode(t: Thrown): ErrorCode {
    match t
    case Auth(e) => e.errorCode
    case MethodArgumentNotValid(_) => VALIDATION_001
    case IllegalArgument(_) => VALIDATION_001
    case Other(_) => SYSTEM_001
  }

  /** The stream `map`/`collect` over the binding's field errors: same length, same order. */
  function ToFieldErrors(errors: seq<BindingFieldError>): (r: seq<FieldError>)
    ensures |r| == |errors|
    ensures forall i :: 0 <= i < |errors| ==> r[i].field == errors[i].field && r[i].message == errors[i].defaultMessage
  {
    if errors == [] then []
    else [FieldError(errors[0].field, errors[0].defaultMessage)] + ToFieldErrors(errors[1..])
  }

  /** The handler Spring selects for `t`, and the response it builds. */
  function Handle(t: Thrown): (h: Handled)
    ensures h.status == Status(SurfacedCode(t)) && Reports(h.body, SurfacedCode(t))
    ensures t.MethodArgumentNotValid? <==> h.body.error.details.Some?
    ensures t.MethodArgumentNotValid? ==>
      h.body.error.details.value.errors == Some(ToFieldErrors(t.fieldErrors))
      && h.body.error.details.value.field.None? && h.body.error.details.value.rejectedValue.None?
  {
    match t
    case Auth(e) => Handled(Status(e.errorCode), Of(e.errorCode))
    case MethodArgumentNotValid(errors) =>
      Handled(Status(VALIDATION_001), OfValidation(VALIDATION_001, ToFieldErrors(errors)))
    case IllegalArgument(_) => Handled(Status(VALIDATION_001), Of(VALIDATION_001))
    case Other(_) => Handled(Status(SYSTEM_001), Of(SYSTEM_001))
  }

  /** Per kind: 401/400/404/500 exactly as the AuthException's code says; 400 VALIDATION_001; 500 SYSTEM_001. */
  lemma HandledStatuses(t: Thrown)
    ensures t.Auth? && "AUTH_" <= Code(t.exception.errorCode) ==> Handle(t).status.Value() == 401
    ensures t.MethodArgumentNotValid? || t.IllegalArgument? ==> Handle(t).status.Value() == 400 && Reports(Handle(t).body, VALIDATION_001)
    ensures t.Other? ==> Handle(t).status.Value() == 500 && Reports(Handle(t).body, SYSTEM_001)
  {
    if t.Auth? { StatusFollowsFamily(t.exception.errorCode); }
  }

  /**
   * Only the error code of an AuthException matters: the caller-supplied
   * message and the cause never reach the body.
   */
  lemma AuthMessageNeverLeaks(errorCode: ErrorCode, message: string, cause: Cause)
    ensures Handle(Auth(WithMessage(errorCode, message))) == Handle(Auth(OfCode(errorCode)))
    ensures Handle(Auth(WithCause(errorCode, cause))) == Handle(Auth(OfCode(errorCode)))
    ensures Handle(Auth(WithMessage(errorCode, message))).body.error.message == Message(errorCode)
  {
  }

  /** The text of an unclassified exception, or of an IllegalArgumentException, never reaches the body. */
  lemma InternalTextNeverLeaks(m1: string, m2: string)
    ensures Handle(Other(m1)) == Handle(Other(m2))
    ensures Handle(IllegalArgument(m1)) == Handle(IllegalArgument(m2))
  {
  }

  /**
   * A token-generation failure is an AuthException, so it surfaces as 500
   * with SYSTEM_003 and not as the catch-all's SYSTEM_001.
   */
  lemma TokenGenerationFailureSurfaces(cause: Cause)
    ensures Handle(Auth(WithCause(SYSTEM_003, cause))) == Handled(INTERNAL_SERVER_ERROR, Of(SYSTEM_003))
    ensures Handle(Auth(WithCause(SYSTEM_003, cause))).body.error.code != Code(SYSTEM_001)
  {
  }

  /**
   * "No such account" and "wrong password" give the same status and message;
   * only the code differs. A disabled account is told apart by its message.
   */
  lemma CredentialFailuresLookAlike()
    ensures Handle(Auth(OfCode(AUTH_002))).status == Handle(Auth(OfCode(AUTH_003))).status == UNAUTHORIZED
    ensures Handle(Auth(OfCode(AUTH_002))).body.error.message == Handle(Auth(OfCode(AUTH_003))).body.error.message
    ensures Handle(Auth(OfCode(AUTH_002))).body.error.code != Handle(Auth(OfCode(AUTH_003))).body.error.code
    ensures Handle(Auth(OfCode(AUTH_004))).body.error.message != Handle(Auth(OfCode(AUTH_002))).body.error.message
  {
    CredentialFailuresIndistinguishable();
  }
}
