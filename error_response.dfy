/**
 * ErrorResponse: the body of every failed request and its three builders.
 * The timestamp field is not modelled.
 */
module ErrorResponses {
  import opened Wrappers
  import opened ErrorCodes

  datatype FieldError = FieldError(field: string, message: string)

  /** Absent fields (Java null, left out of the JSON) are `None`. */
  datatype ErrorDetails = ErrorDetails(field: Option<string>, rejectedValue: Option<string>, errors: Option<seq<FieldError>>)

  datatype Error = Error(code: string, message: string, details: Option<ErrorDetails>)

  datatype ErrorResponse = ErrorResponse(success: bool, error: Error)

  /** `r` is a failure that reports `c`: its code string and the code's fixed message. */
  predicate Reports(r: ErrorResponse, c: ErrorCode) {
    !r.success && r.error.code == Code(c) && r.error.message == Message(c)
  }

  /** `ErrorResponse.of(errorCode)`. */
  function Of(errorCode: ErrorCode): (r: ErrorResponse)
    ensures Reports(r, errorCode) && r.error.details == None
  {
    ErrorResponse(false, Error(Code(errorCode), Message(errorCode), None))
  }

  /** `ErrorResponse.of(errorCode, details)`: the details are carried unchanged (null stays absent). */
  function OfDetails(errorCode: ErrorCode, details: Option<ErrorDetails>): (r: ErrorResponse)
    ensures Reports(r, errorCode) && r.error.details == details
  {
    ErrorResponse(false, Error(Code(errorCode), Message(errorCode), details))
  }

  /** `ErrorResponse.ofValidation(errorCode, fieldErrors)`: only `details.errors` is present. */
  function OfValidation(errorCode: ErrorCode, fieldErrors: seq<FieldError>): (r: ErrorResponse)
    ensures Reports(r, errorCode)
    ensures r.error.details.Some? && r.error.details.value.errors == Some(fieldErrors)
    ensures r.error.details.value.field.None? && r.error.details.value.rejectedValue.None?
  {
    ErrorResponse(false, Error(Code(errorCode), Message(errorCode),
      Some(ErrorDetails(None, None, Some(fieldErrors)))))
  }

  /** A body reports at most one error code, so a client can decode it. */
  lemma {:induction false} ReportsOneCode(r: ErrorResponse, a: ErrorCode, b: ErrorCode)
    requires Reports(r, a) && Reports(r, b)
    ensures a == b
  {
    CodesDistinct(a, b);
  }

  /** `of(code, null)` is `of(code)`; the three builders differ only in their details. */
  lemma BuildersAgree(errorCode: ErrorCode, fieldErrors: seq<FieldError>)
    ensures OfDetails(errorCode, None) == Of(errorCode)
    ensures OfValidation(errorCode, fieldErrors) == OfDetails(errorCode, Some(ErrorDetails(None, None, Some(fieldErrors))))
  {
  }
}
