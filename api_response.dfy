/** ApiResponse: the envelope of every successful reply, built by its three `success` factories. */
module ApiResponses {
  import opened Wrappers

  /** Absent fields (Java null, left out of the JSON) are `None`. */
  datatype ApiResponse<T> = ApiResponse(success: bool, data: Option<T>, message: Option<string>)

  /** `ApiResponse.success(data, message)`. */
  function SuccessOf<T>(data: T, message: string): (r: ApiResponse<T>)
    ensures r.success && r.data == Some(data) && r.message == Some(message)
  {
    ApiResponse(true, Some(data), Some(message))
  }

  /** `ApiResponse.success(data)`: no message. */
  function SuccessOfData<T>(data: T): (r: ApiResponse<T>)
    ensures r.success && r.data == Some(data) && r.message == None
  {
    ApiResponse(true, Some(data), None)
  }

  /** `ApiResponse.success(message)`: no data. */
  function SuccessOfMessage<T>(message: string): (r: ApiResponse<T>)
    ensures r.success && r.data == None && r.message == Some(message)
  {
    ApiResponse(true, None, Some(message))
  }

  /** The three factories are one envelope with a field dropped; none of them yields success = false. */
  lemma FactoriesAgree<T>(data: T, message: string)
    ensures SuccessOfData(data) == SuccessOf(data, message).(message := None)
    ensures SuccessOfMessage<T>(message) == SuccessOf(data, message).(data := None)
    ensures SuccessOf(data, message).success && SuccessOfData(data).success && SuccessOfMessage<T>(message).success
  {
  }
}
