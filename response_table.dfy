/** The `ErrorResponses` table of src/types/response.ts: for each error
    type, the status and message of its error response. */
module ResponseTable {
  import opened Errors
  import opened HttpTypes

  /** `ResponseError`: the error type, a status code and a message. */
  datatype ResponseError = ResponseError(errorType: ErrorType, statusCode: int, message: ErrorMessage)

  const ErrorResponses: map<ErrorType, ResponseError> := map[
    SyntaxErrorType := ResponseError(SyntaxErrorType, BadRequest, InvalidUserDataErrorMessage),
    InvalidUUIDErrorType := ResponseError(InvalidUUIDErrorType, BadRequest, InvalidUUIDErrorMessage),
    InvalidUserDataErrorType := ResponseError(InvalidUserDataErrorType, BadRequest, InvalidUserDataErrorMessage),
    UserNotFoundErrorType := ResponseError(UserNotFoundErrorType, NotFound, UserNotFoundErrorMessage),
    InvalidEndpointErrorType := ResponseError(InvalidEndpointErrorType, NotFound, InvalidEndpointErrorMessage),
    InvalidHTTPMethodErrorType := ResponseError(InvalidHTTPMethodErrorType, BadRequest, InvalidHTTPMethodErrorMessage)
  ]

  /** Every error type is a key, each entry's type is its key, not-found
      and bad-endpoint are 404, the other four are 400, and none is 500. */
  lemma {:induction false} TableEntries(t: ErrorType)
    ensures t in ErrorResponses
    ensures ErrorResponses[t].errorType == t
    ensures ErrorResponses[t].statusCode == if t == UserNotFoundErrorType || t == InvalidEndpointErrorType then NotFound else BadRequest
    ensures ErrorResponses[t].statusCode != ServerErrorStatus
  {
    match t
    case SyntaxErrorType =>
    case InvalidUUIDErrorType =>
    case InvalidUserDataErrorType =>
    case UserNotFoundErrorType =>
    case InvalidEndpointErrorType =>
    case InvalidHTTPMethodErrorType =>
  }

  /** The table has exactly six keys, and `SyntaxError` reuses the message
      of `InvalidUserDataError`. */
  lemma TableSize()
    ensures |ErrorResponses| == 6
    ensures ErrorResponses[SyntaxErrorType].message == ErrorResponses[InvalidUserDataErrorType].message
  {
    var keys := {SyntaxErrorType, InvalidUUIDErrorType, InvalidUserDataErrorType,
                 UserNotFoundErrorType, InvalidEndpointErrorType, InvalidHTTPMethodErrorType};
    assert ErrorResponses.Keys == keys;
    assert |keys| == 6;
  }
}
