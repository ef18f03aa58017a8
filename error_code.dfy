/**
 * ErrorCode: the application's table of error codes, each with its code
 * string, its fixed (Korean) user-facing message and its HTTP status.
 */
module ErrorCodes {

  /** The HTTP statuses the table and the controller use. */
  datatype HttpStatus = OK | BAD_REQUEST | UNAUTHORIZED | NOT_FOUND | INTERNAL_SERVER_ERROR {
    function Value(): int {
      match this
      case OK => 200
      case BAD_REQUEST => 400
      case UNAUTHORIZED => 401
      case NOT_FOUND => 404
      case INTERNAL_SERVER_ERROR => 500
    }
  }

  datatype ErrorCode =
    | AUTH_001 | AUTH_002 | AUTH_003 | AUTH_004 | AUTH_005 | AUTH_006
    | VALIDATION_001 | VALIDATION_002 | VALIDATION_003
    | RESOURCE_001 | RESOURCE_002
    | SYSTEM_001 | SYSTEM_002 | SYSTEM_003

  /** `values()`: every constant, in declaration order. */
  const AllErrorCodes: seq<ErrorCode> := [
    AUTH_001, AUTH_002, AUTH_003, AUTH_004, AUTH_005, AUTH_006,
    VALIDATION_001, VALIDATION_002, VALIDATION_003,
    RESOURCE_001, RESOURCE_002,
    SYSTEM_001, SYSTEM_002, SYSTEM_003]

  /** `name()`: the identifier of the enum constant. */
  function Name(e: ErrorCode): string {
    match e
    case AUTH_001 => "AUTH_001"
    case AUTH_002 => "AUTH_002"
    case AUTH_003 => "AUTH_003"
    case AUTH_004 => "AUTH_004"
    case AUTH_005 => "AUTH_005"
    case AUTH_006 => "AUTH_006"
    case VALIDATION_001 => "VALIDATION_001"
    case VALIDATION_002 => "VALIDATION_002"
    case VALIDATION_003 => "VALIDATION_003"
    case RESOURCE_001 => "RESOURCE_001"
    case RESOURCE_002 => "RESOURCE_002"
    case SYSTEM_001 => "SYSTEM_001"
    case SYSTEM_002 => "SYSTEM_002"
    case SYSTEM_003 => "SYSTEM_003"
  }

  /** The `code` field, as each constant's constructor call supplies it. */
  function Code(e: ErrorCode): (s: string)
    ensures s == Name(e)
  {
    match e
    case AUTH_001 => "AUTH_001"
    case AUTH_002 => "AUTH_002"
    case AUTH_003 => "AUTH_003"
    case AUTH_004 => "AUTH_004"
    case AUTH_005 => "AUTH_005"
    case AUTH_006 => "AUTH_006"
    case VALIDATION_001 => "VALIDATION_001"
    case VALIDATION_002 => "VALIDATION_002"
    case VALIDATION_003 => "VALIDATION_003"
    case RESOURCE_001 => "RESOURCE_001"
    case RESOURCE_002 => "RESOURCE_002"
    case SYSTEM_001 => "SYSTEM_001"
    case SYSTEM_002 => "SYSTEM_002"
    case SYSTEM_003 => "SYSTEM_003"
  }

  /** The `message` field. */
  function Message(e: ErrorCode): string {
    match e
    case AUTH_001 => "인증이 필요합니다."
    case AUTH_002 => "이메일 또는 비밀번호가 올바르지 않습니다."
    case AUTH_003 => "이메일 또는 비밀번호가 올바르지 않습니다."
    case AUTH_004 => "계정이 비활성화되었습니다."
    case AUTH_005 => "토큰이 만료되었습니다."
    case AUTH_006 => "유효하지 않은 토큰입니다."
    case VALIDATION_001 => "입력 데이터 검증에 실패했습니다."
    case VALIDATION_002 => "올바른 이메일 형식이 아닙니다."
    case VALIDATION_003 => "비밀번호는 최소 8자 이상이어야 합니다."
    case RESOURCE_001 => "요청한 리소스를 찾을 수 없습니다."
    case RESOURCE_002 => "사용자를 찾을 수 없습니다."
    case SYSTEM_001 => "시스템 오류가 발생했습니다. 잠시 후 다시 시도해주세요."
    case SYSTEM_002 => "데이터베이스 오류가 발생했습니다."
    case SYSTEM_003 => "토큰 생성에 실패했습니다."
  }

  /** The `httpStatus` field. */
  function Status(e: ErrorCode): HttpStatus {
    match e
    case AUTH_001 => UNAUTHORIZED
    case AUTH_002 => UNAUTHORIZED
    case AUTH_003 => UNAUTHORIZED
    case AUTH_004 => UNAUTHORIZED
    case AUTH_005 => UNAUTHORIZED
    case AUTH_006 => UNAUTHORIZED
    case VALIDATION_001 => BAD_REQUEST
    case VALIDATION_002 => BAD_REQUEST
    case VALIDATION_003 => BAD_REQUEST
    case RESOURCE_001 => NOT_FOUND
    case RESOURCE_002 => NOT_FOUND
    case SYSTEM_001 => INTERNAL_SERVER_ERROR
    case SYSTEM_002 => INTERNAL_SERVER_ERROR
    case SYSTEM_003 => INTERNAL_SERVER_ERROR
  }

  /** Every status in the table is an error status, never 200. */
  lemma StatusIsError(e: ErrorCode)
    ensures Status(e) != OK && Status(e).Value() >= 400
  {
  }

  /** No two constants share a code string, so a response's code identifies the constant. */
  lemma CodesDistinct(a: ErrorCode, b: ErrorCode)
    ensures Code(a) == Code(b) ==> a == b
  {
  }

  lemma PrefixFirst(p: string, s: string)
    requires |p| > 0 && p <= s
    ensures s[0] == p[0]
  {
  }

  /**
   * The code's family prefix decides the status, in both directions:
   * AUTH_* is exactly 401, VALIDATION_* 400, RESOURCE_* 404 and SYSTEM_* 500.
   */
  lemma StatusFollowsFamily(e: ErrorCode)
    ensures "AUTH_" <= Code(e) <==> Status(e) == UNAUTHORIZED
    ensures "VALIDATION_" <= Code(e) <==> Status(e) == BAD_REQUEST
    ensures "RESOURCE_" <= Code(e) <==> Status(e) == NOT_FOUND
    ensures "SYSTEM_" <= Code(e) <==> Status(e) == INTERNAL_SERVER_ERROR
  {
    var c := Code(e);
    if "AUTH_" <= c { PrefixFirst("AUTH_", c); }
    if "VALIDATION_" <= c { PrefixFirst("VALIDATION_", c); }
    if "RESOURCE_" <= c { PrefixFirst("RESOURCE_", c); }
    if "SYSTEM_" <= c { PrefixFirst("SYSTEM_", c); }
  }

  /**
   * User-enumeration defence: "no such account" and "wrong password" have
   * different codes but the same message and status, while a disabled account
   * is told apart; expired and invalid tokens are told apart too.
   */
  lemma CredentialFailuresIndistinguishable()
    ensures Code(AUTH_002) != Code(AUTH_003)
    ensures Message(AUTH_002) == Message(AUTH_003) && Status(AUTH_002) == Status(AUTH_003)
    ensures Message(AUTH_004) != Message(AUTH_002)
    ensures Code(AUTH_005) != Code(AUTH_006) && Message(AUTH_005) != Message(AUTH_006)
  {
  }

  lemma AllErrorCodesListed(e: ErrorCode)
    ensures e in AllErrorCodes && |AllErrorCodes| == 14
  {
  }
}
