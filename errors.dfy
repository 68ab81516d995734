/** The values the core throws (src/types/errors.ts and the error classes
    the core imports from it). */
module Errors {

  /** A thrown value.  The five named classes are defined in
      src/types/errors.ts and extend `Error` directly; they are always
      constructed with their default message.  `HTTPError` and
      `ServerError` are imported from that file but not defined there; an
      `HTTPError` instance carries its own status code. */
  datatype Error =
    | InvalidUUIDError
    | InvalidUserDataError
    | UserNotFoundError
    | InvalidEndpointError
    | InvalidHTTPMethodError
    | ServerError(text: string)
    | HTTPError(statusCode: int, text: string)
    | OtherError(text: string)   // any other `Error`: a JSON.parse SyntaxError, a stream error, ...
    | NonError                   // a thrown value that is not an `Error` at all

  /** `err.message` of an `Error` (the default messages of src/types/errors.ts:1-29). */
  function Message(e: Error): (m: string)
    requires !e.NonError?
  {
    match e
    case InvalidUUIDError => "Invalid UUID format"
    case InvalidUserDataError => "Invalid user data: required fields are missing or have wrong format"
    case UserNotFoundError => "User not found"
    case InvalidEndpointError => "Request to non-existing endpoint"
    case InvalidHTTPMethodError => "Invalid HTTP method"
    case ServerError(t) => t
    case HTTPError(_, t) => t
    case OtherError(t) => t
  }

  /** `err instanceof HTTPError`.  The classes of src/types/errors.ts extend
      `Error`, not `HTTPError`; `ServerError` is taken to be an `Error` with
      status 500 either way (see README). */
  predicate IsHTTPError(e: Error)
  {
    e.HTTPError?
  }

  /** The keys of the `ErrorType` and `ErrorMessage` string enums, as the
      ErrorResponses table (src/types/response.ts) names them. */
  datatype ErrorType =
    | SyntaxErrorType
    | InvalidUUIDErrorType
    | InvalidUserDataErrorType
    | UserNotFoundErrorType
    | InvalidEndpointErrorType
    | InvalidHTTPMethodErrorType

  datatype ErrorMessage =
    | UnknownErrorMessage
    | InvalidUUIDErrorMessage
    | InvalidUserDataErrorMessage
    | UserNotFoundErrorMessage
    | InvalidEndpointErrorMessage
    | InvalidHTTPMethodErrorMessage

  /** The string values of `ErrorType` and `ErrorMessage`, and the value of
      `ErrorMessage.UnknownError`.  Their definitions are not part of this
      model, so they are a parameter of everything that depends on them. */
  datatype StringEnums = StringEnums(errorTypes: set<string>, errorMessages: set<string>, unknownError: string)
}
