/**
 * AuthException, the carrier of an ErrorCode, and the exception kinds that the
 * global exception handler tells apart.
 */
module Exceptions {
  import opened Wrappers
  import opened ErrorCodes

  /** The Throwable an AuthException may wrap, known here only by its description. */
  datatype Cause = Cause(description: string)

  /**
   * An AuthException: its `errorCode` is fixed at construction (a datatype
   * value cannot change), `message` is the RuntimeException message.
   */
  datatype AuthException = AuthException(errorCode: ErrorCode, message: string, cause: Option<Cause>)

  /** `new AuthException(errorCode)`: the code's own message, no cause. */
  function OfCode(errorCode: ErrorCode): (e: AuthException)
    ensures e.errorCode == errorCode && e.message == Message(errorCode) && e.cause == None
  {
    AuthException(errorCode, Message(errorCode), None)
  }

  /** `new AuthException(errorCode, message)`: the caller's message instead of the code's. */
  function WithMessage(errorCode: ErrorCode, message: string): (e: AuthException)
    ensures e.errorCode == errorCode && e.message == message && e.cause == None
  {
    AuthException(errorCode, message, None)
  }

  /** `new AuthException(errorCode, cause)`: the code's own message, and the cause kept. */
  function WithCause(errorCode: ErrorCode, cause: Cause): (e: AuthException)
    ensures e.errorCode == errorCode && e.message == Message(errorCode) && e.cause == Some(cause)
  {
    AuthException(errorCode, Message(errorCode), Some(cause))
  }

  /** The three constructors agree on everything but what each adds. */
  lemma ConstructorsAgree(errorCode: ErrorCode, message: string, cause: Cause)
    ensures OfCode(errorCode).errorCode == WithMessage(errorCode, message).errorCode == WithCause(errorCode, cause).errorCode
    ensures OfCode(errorCode).message == WithCause(errorCode, cause).message
    ensures WithMessage(errorCode, Message(errorCode)) == OfCode(errorCode)
  {
  }

  /** A Spring FieldError of a failed `@Valid` binding: the field and its default message. */
  datatype BindingFieldError = BindingFieldError(field: string, defaultMessage: string)

  /**
   * What may reach the global exception handler: an AuthException, a failed
   * `@Valid` binding (MethodArgumentNotValidException), an
   * IllegalArgumentException (NumberFormatException among them), or any other
   * exception, known only by its message.
   */
  datatype Thrown =
    | Auth(exception: AuthException)
    | MethodArgumentNotValid(fieldErrors: seq<BindingFieldError>)
    | IllegalArgument(message: string)
    | Other(message: string)
}
