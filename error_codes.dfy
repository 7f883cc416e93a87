/** The backend's numeric error codes and their default messages. */
module ErrorCodes {
  import opened Wrappers

  datatype ErrorCode =
    | Success
    | UnknownError | InvalidRequest | MissingParameter | InvalidParameter
    | TripPlanFailed | DestinationNotFound | InvalidDateRange | BudgetTooLow
    | NoAttractionsFound | NoHotelsFound | WeatherQueryFailed
    | LlmServiceError | LlmTimeout | LlmRateLimit | MapServiceError | ImageServiceError
    | DatabaseError | ExternalApiError | CircuitBreakerOpen | RateLimitExceeded
    | Unauthorized | Forbidden | TokenExpired

  /** Every member, in declaration order. */
  const AllCodes: seq<ErrorCode> := [
    Success,
    UnknownError, InvalidRequest, MissingParameter, InvalidParameter,
    TripPlanFailed, DestinationNotFound, InvalidDateRange, BudgetTooLow,
    NoAttractionsFound, NoHotelsFound, WeatherQueryFailed,
    LlmServiceError, LlmTimeout, LlmRateLimit, MapServiceError, ImageServiceError,
    DatabaseError, ExternalApiError, CircuitBreakerOpen, RateLimitExceeded,
    Unauthorized, Forbidden, TokenExpired]

  /** `ErrorCode.X.value` */
  function Value(e: ErrorCode): int {
    match e
    case Success => 0
    case UnknownError => 1000
    case InvalidRequest => 1001
    case MissingParameter => 1002
    case InvalidParameter => 1003
    case TripPlanFailed => 2000
    case DestinationNotFound => 2001
    case InvalidDateRange => 2002
    case BudgetTooLow => 2003
    case NoAttractionsFound => 2004
    case NoHotelsFound => 2005
    case WeatherQueryFailed => 2006
    case LlmServiceError => 3000
    case LlmTimeout => 3001
    case LlmRateLimit => 3002
    case MapServiceError => 3003
    case ImageServiceError => 3004
    case DatabaseError => 4000
    case ExternalApiError => 4001
    case CircuitBreakerOpen => 4002
    case RateLimitExceeded => 4003
    case Unauthorized => 5000
    case Forbidden => 5001
    case TokenExpired => 5002
  }

  /** The `ERROR_MESSAGES` table. */
  const ErrorMessages: map<ErrorCode, string> := map[
    Success := "操作成功",
    UnknownError := "未知错误",
    InvalidRequest := "无效的请求",
    MissingParameter := "缺少必需参数",
    InvalidParameter := "参数无效",
    TripPlanFailed := "行程规划失败",
    DestinationNotFound := "未找到目的地信息",
    InvalidDateRange := "日期范围无效",
    BudgetTooLow := "预算过低，无法规划行程",
    NoAttractionsFound := "未找到相关景点",
    NoHotelsFound := "未找到相关酒店",
    WeatherQueryFailed := "天气查询失败",
    LlmServiceError := "LLM服务错误",
    LlmTimeout := "LLM服务超时",
    LlmRateLimit := "LLM服务限流",
    MapServiceError := "地图服务错误",
    ImageServiceError := "图片服务错误",
    DatabaseError := "数据库错误",
    ExternalApiError := "外部API调用失败",
    CircuitBreakerOpen := "服务暂时不可用，请稍后重试",
    RateLimitExceeded := "请求过于频繁，请稍后再试",
    Unauthorized := "未授权",
    Forbidden := "禁止访问",
    TokenExpired := "令牌已过期"]

  const UnknownErrorText: string := "未知错误"

  /** `get_error_message`: the table entry, or the unknown-error text. */
  function GetErrorMessage(e: ErrorCode): (r: string)
    ensures e in ErrorMessages ==> r == ErrorMessages[e]
    ensures e !in ErrorMessages ==> r == UnknownErrorText
  {
    if e in ErrorMessages then ErrorMessages[e] else UnknownErrorText
  }

  /** The range a code's value falls in. */
  datatype Category = GeneralRange | BusinessRange | ServiceRange | SystemRange | AuthRange

  function CategoryOf(e: ErrorCode): Category {
    match e
    case Success | UnknownError | InvalidRequest | MissingParameter | InvalidParameter => GeneralRange
    case TripPlanFailed | DestinationNotFound | InvalidDateRange | BudgetTooLow
      | NoAttractionsFound | NoHotelsFound | WeatherQueryFailed => BusinessRange
    case LlmServiceError | LlmTimeout | LlmRateLimit | MapServiceError | ImageServiceError => ServiceRange
    case DatabaseError | ExternalApiError | CircuitBreakerOpen | RateLimitExceeded => SystemRange
    case Unauthorized | Forbidden | TokenExpired => AuthRange
  }

  /** The member with a given value, if any (`ErrorCode(v)`). */
  function FromValue(v: int): (r: Option<ErrorCode>)
  {
    FindValue(AllCodes, v)
  }

  function FindValue(cs: seq<ErrorCode>, v: int): (r: Option<ErrorCode>)
    ensures r.Some? ==> Value(r.value) == v && r.value in cs
    ensures r.None? ==> forall c :: c in cs ==> Value(c) != v
  {
    if cs == [] then None
    else if Value(cs[0]) == v then Some(cs[0])
    else FindValue(cs[1..], v)
  }

  /** The table covers every member, so `get_error_message` never falls back. */
  lemma EveryCodeHasMessage(e: ErrorCode)
    ensures e in ErrorMessages
    ensures GetErrorMessage(e) != ""
  {
  }

  /** The member list is complete. */
  lemma AllCodesComplete(e: ErrorCode)
    ensures e in AllCodes
  {
  }

  /** No two members share a value. */
  lemma ValuesDistinct(a: ErrorCode, b: ErrorCode)
    requires Value(a) == Value(b)
    ensures a == b
  {
  }

  /** Each value lies in its category's range, and the ranges are disjoint. */
  lemma CategoryRanges(e: ErrorCode)
    ensures CategoryOf(e) == GeneralRange <==> Value(e) == 0 || 1000 <= Value(e) <= 1003
    ensures CategoryOf(e) == BusinessRange <==> 2000 <= Value(e) <= 2006
    ensures CategoryOf(e) == ServiceRange <==> 3000 <= Value(e) <= 3004
    ensures CategoryOf(e) == SystemRange <==> 4000 <= Value(e) <= 4003
    ensures CategoryOf(e) == AuthRange <==> 5000 <= Value(e) <= 5002
  {
  }

  /** Looking a member up by its value finds it. */
  lemma {:induction false} FromValueOfValue(e: ErrorCode)
    ensures FromValue(Value(e)) == Some(e)
  {
    AllCodesComplete(e);
    var r := FromValue(Value(e));
    if r.Some? {
      ValuesDistinct(r.value, e);
    }
  }
}
