/**
 * The POST /plan route: validate the request, call the planner, and turn
 * every failure into a business exception. The planner is a parameter; its
 * outcome is the plan (or `None`) or the exception it let escape.
 */
module TripApi {
  import opened Wrappers
  import opened Strings
  import opened Dicts
  import opened Values
  import opened ErrorCodes
  import opened Exceptions
  import opened ExceptionHandler
  import opened TripModels

  /** What the planner's `plan_trip` did. */
  datatype PlanOutcome =
    | Returned(plan: Option<TripPlanResponse>)
    | RaisedApp(e: AppException)                 // an application exception
    | RaisedOther(typeName: string, text: string) // any other exception: `type(e).__name__`, `str(e)`

  /** What the route does: return the plan or raise a business exception. */
  datatype RouteResult = Planned(plan: TripPlanResponse) | Failed(e: AppException)

  /** `type(e).__name__` of an application exception. */
  function ClassName(c: ExcClass): string {
    match c
    case BaseApp => "BaseAppException"
    case Business => "BusinessException"
    case Service => "ServiceException"
    case Validation => "ValidationException"
    case ExternalService => "ExternalServiceException"
    case LlmService => "LLMServiceException"
    case MapService => "MapServiceException"
    case ImageService => "ImageServiceException"
  }

  function Details(ps: seq<(string, Value)>): Obj {
    FromPairs(ps)
  }

  function MissingDestination(): AppException {
    MakeException(Business, MissingParameter, None,
      Some(Details([("field", VStr("destination")), ("message", VStr("目的地不能为空"))])))
  }

  function MissingDates(): AppException {
    MakeException(Business, MissingParameter, None,
      Some(Details([("field", VStr("date_range")), ("message", VStr("日期范围不能为空"))])))
  }

  function NoPlan(): AppException {
    MakeException(Business, TripPlanFailed, None,
      Some(Details([("message", VStr("无法生成行程计划，请检查日志获取更多信息"))])))
  }

  /** The wrapping of an unexpected exception. */
  function Wrapped(typeName: string, text: string): AppException {
    MakeException(Business, TripPlanFailed, Some("行程规划失败: " + text),
      Some(Details([("error_type", VStr(typeName))])))
  }

  /** `not request.destination or not request.destination.strip()` */
  predicate BlankDestination(req: TripPlanRequest) {
    req.destination == "" || Strip(req.destination) == ""
  }

  /** `plan_trip(request)` with the planner's outcome on this request. */
  function PlanTrip(req: TripPlanRequest, planner: TripPlanRequest -> PlanOutcome): RouteResult {
    if BlankDestination(req) then Failed(MissingDestination())
    else if req.startDate == "" || req.endDate == "" then Failed(MissingDates())
    else match planner(req)
      case Returned(None) => Failed(NoPlan())
      case Returned(Some(plan)) => Planned(plan)
      case RaisedApp(e) =>
        if e.cls == Business then Failed(e)
        else Failed(Wrapped(ClassName(e.cls), e.message))
      case RaisedOther(typeName, text) => Failed(Wrapped(typeName, text))
  }

  /** A blank destination is refused first, whatever the dates, and the planner's behaviour plays no part. */
  lemma DestinationFirst(req: TripPlanRequest, p1: TripPlanRequest -> PlanOutcome, p2: TripPlanRequest -> PlanOutcome)
    requires BlankDestination(req)
    ensures PlanTrip(req, p1) == PlanTrip(req, p2) == Failed(MissingDestination())
    ensures MissingDestination().code == MissingParameter
    ensures MissingDestination().details.m["field"] == VStr("destination")
  {
  }

  /** With a destination but a missing date, the date range is refused before the planner. */
  lemma DatesSecond(req: TripPlanRequest, p1: TripPlanRequest -> PlanOutcome, p2: TripPlanRequest -> PlanOutcome)
    requires !BlankDestination(req) && (req.startDate == "" || req.endDate == "")
    ensures PlanTrip(req, p1) == PlanTrip(req, p2) == Failed(MissingDates())
    ensures MissingDates().details.m["field"] == VStr("date_range")
  {
  }

  /** A valid request's outcome is decided by the planner's alone. */
  lemma ValidRequestOutcome(req: TripPlanRequest, planner: TripPlanRequest -> PlanOutcome)
    requires !BlankDestination(req) && req.startDate != "" && req.endDate != ""
    ensures planner(req) == Returned(None) ==> PlanTrip(req, planner) == Failed(NoPlan())
    ensures planner(req).Returned? && planner(req).plan.Some? ==> PlanTrip(req, planner) == Planned(planner(req).plan.value)
    ensures planner(req).RaisedApp? && planner(req).e.cls == Business ==> PlanTrip(req, planner) == Failed(planner(req).e)
    ensures planner(req).RaisedOther? ==>
      PlanTrip(req, planner) == Failed(Wrapped(planner(req).typeName, planner(req).text))
  {
  }

  /**
   * The route succeeds exactly when the request is valid and the planner
   * returned a plan, and then it returns that plan unchanged.
   */
  lemma PlannedIff(req: TripPlanRequest, planner: TripPlanRequest -> PlanOutcome, plan: TripPlanResponse)
    ensures PlanTrip(req, planner) == Planned(plan) <==>
      !BlankDestination(req) && req.startDate != "" && req.endDate != "" && planner(req) == Returned(Some(plan))
  {
    if !BlankDestination(req) && req.startDate != "" && req.endDate != "" {
      match planner(req)
      case Returned(p) =>
        assert PlanTrip(req, planner) == if p.Some? then Planned(p.value) else Failed(NoPlan());
      case RaisedApp(e) =>
        assert PlanTrip(req, planner).Failed?;
      case RaisedOther(_, _) =>
        assert PlanTrip(req, planner).Failed?;
    }
  }

  /**
   * Every failure leaves the route as a business exception, so the global
   * handler answers it with status 400 and the exception's own code:
   * MISSING_PARAMETER for a refused request, TRIP_PLAN_FAILED for a failed
   * plan, or the code of a re-raised business exception.
   */
  lemma FailuresAreBusiness(req: TripPlanRequest, planner: TripPlanRequest -> PlanOutcome, requestId: string)
    requires PlanTrip(req, planner).Failed?
    ensures PlanTrip(req, planner).e.cls == Business
    ensures Handle(App(PlanTrip(req, planner).e), requestId).status == 400
    ensures !(planner(req).RaisedApp? && planner(req).e.cls == Business) ==>
      PlanTrip(req, planner).e.code in {MissingParameter, TripPlanFailed}
  {
    var e := PlanTrip(req, planner).e;
    FailureShape(req, planner);
    HandledAs400(e, requestId);
  }

  lemma FailureShape(req: TripPlanRequest, planner: TripPlanRequest -> PlanOutcome)
    requires PlanTrip(req, planner).Failed?
    ensures PlanTrip(req, planner).e.cls == Business
    ensures !(planner(req).RaisedApp? && planner(req).e.cls == Business) ==>
      PlanTrip(req, planner).e.code in {MissingParameter, TripPlanFailed}
  {
    if BlankDestination(req) {
      assert PlanTrip(req, planner) == Failed(MissingDestination());
    } else if req.startDate == "" || req.endDate == "" {
      assert PlanTrip(req, planner) == Failed(MissingDates());
    } else {
      match planner(req)
      case Returned(_) =>
        assert PlanTrip(req, planner) == Failed(NoPlan());
      case RaisedApp(e) =>
        if e.cls != Business {
          assert PlanTrip(req, planner) == Failed(Wrapped(ClassName(e.cls), e.message));
        }
      case RaisedOther(typeName, text) =>
        assert PlanTrip(req, planner) == Failed(Wrapped(typeName, text));
    }
  }

  lemma HandledAs400(e: AppException, requestId: string)
    ensures Handle(App(e), requestId).status == 400
  {
  }

  /** A wrapped exception's message always starts with the fixed prefix, even when `str(e)` is empty. */
  lemma WrappedMessage(typeName: string, text: string)
    ensures Wrapped(typeName, text).message == "行程规划失败: " + text
    ensures Wrapped(typeName, text).details.m["error_type"] == VStr(typeName)
  {
  }
}
