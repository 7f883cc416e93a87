/** The application exception hierarchy and its error-body projection. */
module Exceptions {
  import opened Wrappers
  import opened Dicts
  import opened Values
  import opened ErrorCodes

  /** The exception classes; every one of them is a `BaseAppException`. */
  datatype ExcClass =
    | BaseApp | Business | Service | Validation
    | ExternalService | LlmService | MapService | ImageService

  /** The direct base class (`None` for `BaseAppException` itself). */
  function Parent(c: ExcClass): Option<ExcClass> {
    match c
    case BaseApp => None
    case Business | Service | Validation => Some(BaseApp)
    case ExternalService => Some(Service)
    case LlmService | MapService | ImageService => Some(ExternalService)
  }

  /** Distance to `BaseAppException` along the base-class chain. */
  function Depth(c: ExcClass): nat {
    match c
    case BaseApp => 0
    case Business | Service | Validation => 1
    case ExternalService => 2
    case LlmService | MapService | ImageService => 3
  }

  /** `issubclass(c, d)`: `d` is `c` or one of its ancestors. */
  predicate IsSubclass(c: ExcClass, d: ExcClass)
    decreases Depth(c)
  {
    c == d || (Parent(c).Some? && Depth(Parent(c).value) < Depth(c) && IsSubclass(Parent(c).value, d))
  }

  /** A raised application exception. */
  datatype AppException = AppException(cls: ExcClass, code: ErrorCode, message: string, details: Obj)

  /**
   * The constructor: a `None` or empty message falls back to the code's
   * default text, and `None` or empty details to `{}`.
   */
  function MakeException(cls: ExcClass, code: ErrorCode, message: Option<string>, details: Option<Obj>): (r: AppException)
    ensures r.cls == cls && r.code == code
    ensures message.Some? && message.value != "" ==> r.message == message.value
    ensures message.None? || message.value == "" ==> r.message == GetErrorMessage(code)
    ensures details.Some? && TruthyObj(details.value) ==> r.details == details.value
    ensures details.None? || !TruthyObj(details.value) ==> r.details == Empty()
  {
    AppException(
      cls, code,
      if message.Some? && message.value != "" then message.value else GetErrorMessage(code),
      if details.Some? && TruthyObj(details.value) then details.value else Empty())
  }

  /** `to_dict()` */
  function ToDict(e: AppException): (r: Obj)
    ensures r.Valid() && r.keys == ["error_code", "error_message", "details"]
    ensures r.m["error_code"] == VInt(ErrorCodes.Value(e.code))
    ensures r.m["error_message"] == VStr(e.message)
    ensures r.m["details"] == VDict(e.details)
  {
    Dict(["error_code", "error_message", "details"],
      map["error_code" := VInt(ErrorCodes.Value(e.code)),
          "error_message" := VStr(e.message),
          "details" := VDict(e.details)])
  }

  /** Every class in the hierarchy descends from `BaseAppException`. */
  lemma {:induction false} AllAreAppExceptions(c: ExcClass)
    ensures IsSubclass(c, BaseApp)
    decreases Depth(c)
  {
    if c != BaseApp {
      AllAreAppExceptions(Parent(c).value);
    }
  }

  /** The external-service classes descend from `ServiceException`; business and validation do not. */
  lemma HierarchyShape()
    ensures IsSubclass(LlmService, ExternalService) && IsSubclass(MapService, ExternalService)
    ensures IsSubclass(ImageService, ExternalService) && IsSubclass(ExternalService, Service)
    ensures Parent(Business) == Some(BaseApp) && Parent(Validation) == Some(BaseApp)
    ensures !IsSubclass(Business, Service) && !IsSubclass(Validation, Service)
  {
  }

  /** A message given explicitly survives; an empty one is replaced by the table text. */
  lemma DefaultMessage(cls: ExcClass, code: ErrorCode)
    ensures MakeException(cls, code, Some(""), None).message == ErrorMessages[code]
    ensures MakeException(cls, code, None, Some(Empty())).details == Empty()
  {
    EveryCodeHasMessage(code);
  }
}
