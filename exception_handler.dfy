/**
 * The global exception handler: which HTTP status and error body each kind
 * of exception is turned into.
 */
module ExceptionHandler {
  import opened Wrappers
  import opened Dicts
  import opened Values
  import opened ErrorCodes
  import opened Exceptions

  /** The exceptions the handler distinguishes, in the order it tests them. */
  datatype AnyException =
    | App(e: AppException)
    | RequestValidation(errors: Value)
    | Http(statusCode: int, detail: Value)
    | Other(typeName: string, text: string)

  datatype ErrorResponse = ErrorResponse(status: int, body: Obj)

  const ValidationFailedText: string := "请求参数验证失败"
  const InternalErrorText: string := "服务器内部错误"

  /** `{"validation_errors": errors}` */
  function ValidationDetails(errors: Value): (d: Obj)
    ensures d.Valid() && d.keys == ["validation_errors"] && d.m["validation_errors"] == errors
  {
    Dict(["validation_errors"], map["validation_errors" := errors])
  }

  /** `{"exception_type": type(exc).__name__, "exception_message": str(exc)}` */
  function ExceptionDetails(typeName: string, text: string): (d: Obj)
    ensures d.Valid() && d.keys == ["exception_type", "exception_message"]
    ensures d.m["exception_type"] == VStr(typeName) && d.m["exception_message"] == VStr(text)
  {
    Dict(["exception_type", "exception_message"], map["exception_type" := VStr(typeName), "exception_message" := VStr(text)])
  }

  /** `global_exception_handler(request, exc)` with the current request id. */
  function Handle(exc: AnyException, requestId: string): (r: ErrorResponse)
    ensures r.body.Valid()
    ensures "success" in r.body.m && r.body.m["success"] == VBool(false)
    ensures "request_id" in r.body.m && r.body.m["request_id"] == VStr(requestId)
    ensures "error_code" in r.body.m && "error_message" in r.body.m
    ensures exc.App? ==>
      && r.status == 400
      && r.body.m["error_code"] == VInt(ErrorCodes.Value(exc.e.code))
      && r.body.m["error_message"] == VStr(exc.e.message)
      && "details" in r.body.m && r.body.m["details"] == VDict(exc.e.details)
    ensures exc.RequestValidation? ==>
      && r.status == 422
      && r.body.m["error_code"] == VInt(ErrorCodes.Value(InvalidParameter))
      && r.body.m["error_message"] == VStr(ValidationFailedText)
      && "details" in r.body.m
      && r.body.m["details"] == VDict(ValidationDetails(exc.errors))
    ensures exc.Http? ==>
      && r.status == exc.statusCode && "details" !in r.body.m
      && r.body.m["error_message"] == exc.detail
      && r.body.m["error_code"] == VInt(ErrorCodes.Value(if exc.statusCode == 429 then RateLimitExceeded else UnknownError))
    ensures exc.Other? ==>
      && r.status == 500
      && r.body.m["error_code"] == VInt(ErrorCodes.Value(UnknownError))
      && r.body.m["error_message"] == VStr(InternalErrorText)
      && "details" in r.body.m
      && r.body.m["details"] == VDict(ExceptionDetails(exc.typeName, exc.text))
  {
    match exc
    case App(e) => ErrorResponse(400, ErrorBody(e.code, VStr(e.message), Some(e.details), requestId))
    case RequestValidation(errors) =>
      ErrorResponse(422, ErrorBody(InvalidParameter, VStr(ValidationFailedText), Some(ValidationDetails(errors)), requestId))
    case Http(statusCode, detail) =>
      ErrorResponse(statusCode, ErrorBody(if statusCode == 429 then RateLimitExceeded else UnknownError, detail, None, requestId))
    case Other(typeName, text) =>
      ErrorResponse(500, ErrorBody(UnknownError, VStr(InternalErrorText), Some(ExceptionDetails(typeName, text)), requestId))
  }

  /** The response body: `success`, `error_code`, `error_message`, then `details` when given, then `request_id`. */
  function ErrorBody(code: ErrorCode, message: Value, details: Option<Obj>, requestId: string): (b: Obj)
    ensures b.Valid()
    ensures "success" in b.m && b.m["success"] == VBool(false)
    ensures "error_code" in b.m && b.m["error_code"] == VInt(ErrorCodes.Value(code))
    ensures "error_message" in b.m && b.m["error_message"] == message
    ensures "request_id" in b.m && b.m["request_id"] == VStr(requestId)
    ensures "details" in b.m <==> details.Some?
    ensures details.Some? ==> b.m["details"] == VDict(details.value)
  {
    match details
    case Some(d) =>
      Dict(["success", "error_code", "error_message", "details", "request_id"],
           map["success" := VBool(false), "error_code" := VInt(ErrorCodes.Value(code)),
               "error_message" := message, "details" := VDict(d), "request_id" := VStr(requestId)])
    case None =>
      Dict(["success", "error_code", "error_message", "request_id"],
           map["success" := VBool(false), "error_code" := VInt(ErrorCodes.Value(code)),
               "error_message" := message, "request_id" := VStr(requestId)])
  }

  /** An HTTP error other than 429 is reported as an unknown error with its own status. */
  lemma HttpCodes(statusCode: int, detail: Value, requestId: string)
    ensures var r := Handle(Http(statusCode, detail), requestId);
      && (statusCode != 429 ==> r.body.m["error_code"] == VInt(1000))
      && (r.body.m["error_code"] == VInt(4003) <==> statusCode == 429)
  {
  }

  /** An application exception's body carries exactly its `to_dict()` fields. */
  lemma AppBodyMatchesToDict(e: AppException, requestId: string)
    ensures var b := Handle(App(e), requestId).body; var d := ToDict(e);
      forall k :: k in d.m ==> k in b.m && b.m[k] == d.m[k]
  {
  }
}
