# WayfinderAI backend core, modelled in Dafny

WayfinderAI is a travel-planning web service. Its FastAPI backend takes a
trip request (destination, dates, preferences) and hands it to a team of
language-model agents. Attraction, hotel and weather agents each search for
their part of the trip. A planner agent merges their findings into a
day-by-day plan. The agents share a blackboard and a message hub, remember
users' preferences and past trips, and call tools by writing
`[TOOL_CALL:<name>:<args>]` in their replies. The HTTP layer is wrapped in
a circuit breaker, token-bucket rate limiting and fallback wrappers. Errors
become numbered business or service exceptions, which a global handler
answers.

This project models that core in Dafny, one module per source file:

| module | file | what it holds |
|---|---|---|
| `Config` | config.dfy | the CORS origin list parsed from the settings |
| `CommonModels`, `TripModels` | common_model.dfy, trip_model.dfy | the request and response records, their defaults and their validation from decoded JSON |
| `TripApi` | trip_api.dfy | the `POST /plan` route: request checks, planner outcome, exception wrapping |
| `Auth` | auth.dfy | register, login, profile and password routes over the in-memory user table |
| `ErrorCodes`, `Exceptions`, `ExceptionHandler` | error_codes.dfy, exceptions.dfy, exception_handler.dfy | error codes and messages, the exception hierarchy, status and body for each exception |
| `LlmServices` | llm_service.dfy | provider detection and the key, base URL and model chosen for it |
| `CircuitBreakers`, `RateLimiting`, `Degradation` | circuit_breaker.dfy, rate_limit.dfy, degradation.dfy | the resilience middleware |
| `ContextManagement` | context_manager.dfy | the versioned blackboard with history, shared data and snapshots |
| `Memory`, `VectorMemory` | memory_service.dfy, vector_memory.dfy | the JSON memory store and the vector memory index |
| `AgentCommunication` | agent_communication.dfy | the message hub: registry, log, delivery, broadcast, negotiation |
| `ToolCalls` | tool_calls.dfy | the tool-call token grammar, argument parsing and tool execution |
| `EnhancedAgents` | enhanced_agent.dfy | the agent with history, blackboard, hub, memory and the bounded tool loop |
| `SpecializedAgents` | specialized_agents.dfy | the attraction, hotel, weather and planner agents |
| `Planner` | planner.dfy | the orchestrator: search queries, prompt, reply validation, image backfill |

Helper modules write out the Python behaviour the core relies on:
`Wrappers` (Option), `Strings` (`strip`, `split`, `join`, `in`, `replace`,
`lower`, slicing, `str(int)`), `Values` (JSON-like values and Python
truthiness), `Dicts` (insertion-ordered `dict`) and `Sorting` (the stable
`sort(key=..., reverse=True)`).

What lies outside the backend is a parameter of the model. This covers the
completion model, the tools, the agents' message handlers, FAISS search,
`json.loads`, the photo search, the wall clock and uuids. Each operation is
proved against what the source promises for every behaviour of those
parameters. Where the source changes objects in place (the breaker, the
buckets, the blackboard, the memory stores, the hub, the agents), the model
is a class whose methods are proved against pure transition functions. The
properties of those functions are proved as lemmas.

## Model

| member | source | states |
|---|---|---|
| Config.CorsOriginsList | backend/app/config.py:48-50 | one entry per comma-separated piece, in order (commas + 1 entries), each piece stripped; no entry holds a comma or surrounding whitespace |
| Config.StripInside | backend/app/config.py:50 | `strip()` only removes characters, and what it returns has no surrounding whitespace |
| Config.TwoOrigins | backend/app/config.py:48-50 | two clean origins joined by one comma come back unchanged and in order |
| Config.DefaultOrigins | backend/app/config.py:31 | the default `CORS_ORIGINS` yields exactly the two development origins |
| Config.TrailingComma | backend/app/config.py:50 | a trailing comma yields a final empty origin: empty pieces are kept, not dropped |
| ErrorCodes.GetErrorMessage | backend/app/exceptions/error_codes.py:79-89 | the table's message for a code in the table, the unknown-error text otherwise |
| ErrorCodes.EveryCodeHasMessage | backend/app/exceptions/error_codes.py:47-76 | the message table covers every member, so `get_error_message` never falls back and never returns empty text |
| ErrorCodes.ValuesDistinct | backend/app/exceptions/error_codes.py:9-43 | no two members of `ErrorCode` share a value |
| ErrorCodes.CategoryRanges | backend/app/exceptions/error_codes.py:11-43 | for `CategoryOf`: each code lies in its documented range (general 0/1000-1003, business 2000-2006, service 3000-3004, system 4000-4003, auth 5000-5002), both directions |
| ErrorCodes.FindValue | backend/app/exceptions/error_codes.py:9-43 | a member found by value has that value and is in the list; none found means no listed member has it |
| ErrorCodes.FromValueOfValue | backend/app/exceptions/error_codes.py:9-43 | for `FromValue`: `ErrorCode(code.value)` gives back the same member for every member |
| Exceptions.MakeException | backend/app/exceptions/custom_exceptions.py:12-29 | the code is kept; a non-empty message is kept and a missing or empty one becomes the code's table text; truthy details are kept, otherwise `{}` |
| Exceptions.DefaultMessage | backend/app/exceptions/custom_exceptions.py:27-28 | an empty message falls back to the table text, and empty details to `{}` |
| Exceptions.ToDict | backend/app/exceptions/custom_exceptions.py:31-42 | exactly the keys error_code, error_message, details, in that order, holding the code's value, the message and the details |
| Exceptions.AllAreAppExceptions | backend/app/exceptions/custom_exceptions.py:45-78 | every exception class descends from `BaseAppException` |
| Exceptions.HierarchyShape | backend/app/exceptions/custom_exceptions.py:45-78 | LLM, map and image exceptions are external-service exceptions, which are service exceptions; business and validation exceptions are not |
| ExceptionHandler.Handle | backend/app/exceptions/exception_handler.py:14-134 | every response has success false, the request id, an error code and a message; an application exception gives 400 with its own code, message and details; a validation error 422 with INVALID_PARAMETER and details `{validation_errors: errors}`; an HTTP error its own status, its detail, no details key, and RATE_LIMIT_EXCEEDED exactly for 429; anything else 500 with UNKNOWN_ERROR and details `{exception_type, exception_message}` carrying the exception's type name and text |
| ExceptionHandler.HttpCodes | backend/app/exceptions/exception_handler.py:82-86 | an HTTP error reports 4003 exactly when its status is 429, and 1000 otherwise |
| ExceptionHandler.AppBodyMatchesToDict | backend/app/exceptions/exception_handler.py:42-51 | an application exception's response carries every field of its `to_dict()` unchanged |
| CommonModels.Str | backend/app/models/common_model.py:16 | a required `str` field validates exactly when it is present and a string |
| CommonModels.StrOr | backend/app/models/common_model.py:17 | a missing `str` field with a default takes the default |
| CommonModels.RealOr | backend/app/models/common_model.py:6-7 | a missing `float` field with a default takes the default |
| CommonModels.NumOrTextOr | backend/app/models/common_model.py:18 | a missing `float \| str` field is "N/A" |
| CommonModels.OptReal | backend/app/models/common_model.py:19-22 | a missing `float \| None` field is `None` |
| CommonModels.OptStr | backend/app/models/common_model.py:63-68 | a missing `str \| None` field is `None` |
| CommonModels.StrListOr | backend/app/models/common_model.py:26-29 | a missing `List[str]` field is the empty list |
| CommonModels.OptLocation | backend/app/models/common_model.py:25 | a missing `Location \| None` field is `None` |
| CommonModels.ParseLocation | backend/app/models/common_model.py:4-7 | a location validates exactly when both lat and lng are numbers |
| CommonModels.ParseAttraction | backend/app/models/common_model.py:10-33 | an attraction without a string name is refused |
| CommonModels.ParseHotel | backend/app/models/common_model.py:36-46 | a hotel without a string name is refused |
| CommonModels.ParseDining | backend/app/models/common_model.py:48-54 | a dining entry without a string name is refused |
| CommonModels.ParseWeather | backend/app/models/common_model.py:56-68 | a weather entry validates only with all five required string fields |
| CommonModels.NumOrTextRoundTrip | backend/app/models/common_model.py:18 | a written-out `float \| str` value reads back as itself |
| CommonModels.StrListRoundTrip | backend/app/models/common_model.py:26-29 | a written-out list of strings reads back as itself |
| CommonModels.LocationRoundTrip | backend/app/models/common_model.py:4-7 | a dumped location validates back to itself |
| CommonModels.OptLocationRoundTrip | backend/app/models/common_model.py:25 | a written-out optional location reads back as itself |
| CommonModels.OptRealRoundTrip | backend/app/models/common_model.py:19-22 | a written-out optional float reads back as itself |
| CommonModels.AttractionRoundTrip | backend/app/models/common_model.py:10-33 | a dumped attraction validates back to itself |
| CommonModels.HotelRoundTrip | backend/app/models/common_model.py:36-46 | a dumped hotel validates back to itself |
| CommonModels.DiningRoundTrip | backend/app/models/common_model.py:48-54 | a dumped dining entry validates back to itself |
| CommonModels.WeatherRoundTrip | backend/app/models/common_model.py:56-68 | a dumped weather entry validates back to itself |
| CommonModels.AttractionNameOnly | backend/app/models/common_model.py:16-33 | a name alone makes an attraction with every other field at its declared default |
| CommonModels.HotelNameOnly | backend/app/models/common_model.py:38-46 | a name alone makes a hotel with every other field at its declared default |
| CommonModels.DiningNameOnly | backend/app/models/common_model.py:50-54 | a name alone makes a dining entry with every other field at its declared default |
| CommonModels.LocationNeedsBoth | backend/app/models/common_model.py:6-7 | a location with only a latitude is refused |
| CommonModels.WeatherWindsOptional | backend/app/models/common_model.py:58-68 | the five descriptive fields make a weather entry, with both winds `None` |
| CommonModels.WeatherNeedsNightTemp | backend/app/models/common_model.py:62 | without its night temperature a weather entry is refused |
| CommonModels.RatingNumberKept | backend/app/models/common_model.py:18 | a numeric rating is kept as a number |
| CommonModels.RatingTextKept | backend/app/models/common_model.py:18 | a string rating is kept as a string |
| TripModels.ParseEach | backend/app/models/trip_model.py:61-66 | a validated `List[Model]` has one record per element, each element an object that validates to that record |
| TripModels.ListField | backend/app/models/trip_model.py:61-66 | a missing list field takes its default (`[]`, or an error for a required list) |
| TripModels.OptRecord | backend/app/models/trip_model.py:57-60 | a missing optional record field is `None` |
| TripModels.RecordField | backend/app/models/trip_model.py:67-69 | a missing record field takes its default (`DailyBudget()`, or an error when required) |
| TripModels.ParseTripPlanRequest | backend/app/models/trip_model.py:9-20 | a request validates only with string destination, start and end dates |
| TripModels.ParseDailyPlan | backend/app/models/trip_model.py:44-69 | a daily plan without an integer day is refused |
| TripModels.ParseTripPlanResponse | backend/app/models/trip_model.py:72-80 | a plan validates only with a string title, a total budget and a days list |
| TripModels.DumpEach | backend/app/models/trip_model.py:61-66 | the written-out list has one object per record, in order |
| TripModels.EachRoundTrip | backend/app/models/trip_model.py:61-66 | a list of records survives writing out and validating whenever each record does |
| TripModels.ListFieldRoundTrip | backend/app/models/trip_model.py:61-66 | a written-out list field reads back as the list |
| TripModels.OptRecordRoundTrip | backend/app/models/trip_model.py:57-60 | a written-out optional record reads back as itself |
| TripModels.RecordFieldRoundTrip | backend/app/models/trip_model.py:67-69 | a written-out record field reads back as the record |
| TripModels.BudgetRoundTrip | backend/app/models/trip_model.py:26-41 | a dumped budget validates back to itself |
| TripModels.AttractionsRoundTrip | backend/app/models/trip_model.py:61-63 | a dumped attraction list validates back to itself |
| TripModels.DiningsRoundTrip | backend/app/models/trip_model.py:64-66 | a dumped dining list validates back to itself |
| TripModels.HotelsRoundTrip | backend/app/models/trip_model.py:79 | a dumped hotel list validates back to itself |
| TripModels.DailyPlanMap | backend/app/models/trip_model.py:55-69 | a dumped daily plan holds exactly its seven fields |
| TripModels.DailyPlanFields | backend/app/models/trip_model.py:55-69 | each field of a dumped daily plan validates back to that field |
| TripModels.DailyPlanRecords | backend/app/models/trip_model.py:57-60 | the weather and recommended hotel of a dumped day read back as themselves |
| TripModels.DailyPlanLists | backend/app/models/trip_model.py:61-66 | the attractions and dinings of a dumped day read back as themselves |
| TripModels.DailyPlanRoundTrip | backend/app/models/trip_model.py:44-69 | a dumped daily plan validates back to itself |
| TripModels.DailyPlansRoundTrip | backend/app/models/trip_model.py:80 | a dumped list of days validates back to itself |
| TripModels.TripPlanResponseRoundTrip | backend/app/models/trip_model.py:72-80 | a whole plan survives being written out as JSON and validated again |
| TripModels.RequestDefaults | backend/app/models/trip_model.py:9-20 | destination and dates make a request with empty preference lists and budget "中等"; without the end date it is refused |
| TripModels.BudgetDefaults | backend/app/models/trip_model.py:26-32 | every budget field defaults to 0.0, and a total is accepted without being checked against the parts |
| TripModels.DailyPlanDayOnly | backend/app/models/trip_model.py:55-69 | a day number alone makes a daily plan with every other field at its default; no day is refused |
| TripModels.ResponseRequiredFields | backend/app/models/trip_model.py:75-80 | title, total budget and days make a plan with no hotels; without the total budget it is refused |
| TripApi.DestinationFirst | backend/app/api/v1/trip.py:46-50 | a blank or whitespace-only destination is refused with MISSING_PARAMETER on field "destination" before anything else, whatever the planner does |
| TripApi.DatesSecond | backend/app/api/v1/trip.py:52-56 | with a destination but an empty start or end date, the request is refused on field "date_range" without calling the planner |
| TripApi.ValidRequestOutcome | backend/app/api/v1/trip.py:59-95 | for a valid request: no plan gives TRIP_PLAN_FAILED, a plan is returned as is, a business exception passes through unchanged, and any other exception is wrapped |
| TripApi.PlannedIff | backend/app/api/v1/trip.py:44-76 | for the route `PlanTrip`: the route returns a plan exactly when the request is valid and the planner returned that plan |
| TripApi.FailuresAreBusiness | backend/app/api/v1/trip.py:44-95 | every failure leaves the route as a business exception, answered with status 400; unless the planner raised a business exception itself, its code is MISSING_PARAMETER or TRIP_PLAN_FAILED |
| TripApi.FailureShape | backend/app/api/v1/trip.py:44-95 | every failure is a business exception whose code is MISSING_PARAMETER or TRIP_PLAN_FAILED unless the planner raised a business exception itself |
| TripApi.WrappedMessage | backend/app/api/v1/trip.py:91-95 | a wrapped exception's message is "行程规划失败: " followed by `str(e)`, and its details name the exception type |
| LlmServices.Or | backend/app/services/llm_service.py:79 | `a or b`: the first value when it is a non-empty string, the second otherwise |
| LlmServices.ProviderKey | backend/app/services/llm_service.py:78 | ollama, vllm and custom have no key setting of their own |
| LlmServices.BaseUrlFirst | backend/app/services/llm_service.py:51-58 | a recognised base URL decides the provider whatever keys are set |
| LlmServices.UrlOrder | backend/app/services/llm_service.py:54-58 | the URL patterns are tried in order: a URL naming both api.openai.com and ":8000" is openai |
| LlmServices.OllamaPort | backend/app/services/llm_service.py:54-57 | a URL naming no hosted service but port 11434 is ollama |
| LlmServices.CustomIffNothingMatches | backend/app/services/llm_service.py:47-71 | for `DetectProvider`: the provider stays "custom" exactly when no URL pattern, no provider key and no "sk-" key applies |
| LlmServices.GenericKeyFallback | backend/app/services/llm_service.py:77-89 | for `Resolve`: ollama, vllm and custom always use LLM_API_KEY and LLM_BASE_URL as set |
| LlmServices.ProviderKeyAlone | backend/app/services/llm_service.py:61-92 | with no base URL, a Zhipu key alone selects zhipu, that key and its default URL |
| LlmServices.BaseUrlKept | backend/app/services/llm_service.py:82-89 | a set LLM_BASE_URL is always the resolved URL, whichever provider was detected |
| LlmServices.ChatClient.Create | backend/app/services/llm_service.py:104-111 | one request with the given model and prompt is logged, and the client's reply returned |
| LlmServices.PlanText | backend/app/services/llm_service.py:112-117 | the reply's content, or "" for a null content or an exception |
| LlmServices.LlmService.constructor | backend/app/services/llm_service.py:14-34 | the provider is the detected one, and key, base URL and model are the resolved credentials |
| LlmServices.LlmService.AutoDetectProvider | backend/app/services/llm_service.py:47-71 | the provider becomes the one the first applicable rule names; nothing else changes |
| LlmServices.LlmService.ResolveCredentials | backend/app/services/llm_service.py:73-92 | key, base URL and model become the resolved credentials for the detected provider, which is unchanged |
| LlmServices.LlmService.GenerateJsonPlan | backend/app/services/llm_service.py:94-117 | without a key: "" and no request; with one: exactly one request with the resolved model and the prompt, returning its content or "" |
| CircuitBreakers.Admit | backend/app/middleware/circuit_breaker.py:68-77 | a call is rejected exactly when the breaker is open and its timeout has not elapsed; an open breaker past its timeout becomes half-open with its success count reset; other states pass unchanged |
| CircuitBreakers.OnSuccess | backend/app/middleware/circuit_breaker.py:91-103 | half-open: one more success, closing with both counts reset at the success threshold; closed: the failure count is reset; open: nothing changes |
| CircuitBreakers.OnFailure | backend/app/middleware/circuit_breaker.py:105-122 | one more failure, stamped with its time; half-open reopens with the success count reset; closed opens exactly at the failure threshold |
| CircuitBreakers.CallStep | backend/app/middleware/circuit_breaker.py:53-89 | a rejected call changes nothing and runs nothing; a returned value passes through after `_on_success`; an expected exception is re-raised after `_on_failure`; any other exception is re-raised with no failure recorded |
| CircuitBreakers.ApplyKeepsInv | backend/app/middleware/circuit_breaker.py:68-122 | each event (call admission, success, counted failure, reset) keeps the breaker invariant |
| CircuitBreakers.ReplayKeepsInv | backend/app/middleware/circuit_breaker.py:42-134 | every breaker reachable from a new one is consistent: only a half-open breaker counts successes, an open one has a failure time, a closed one is below the failure threshold |
| CircuitBreakers.Failures | backend/app/middleware/circuit_breaker.py:105-109 | one failure event per time stamp, in order |
| CircuitBreakers.FailuresBelowThreshold | backend/app/middleware/circuit_breaker.py:116-122 | fewer failures than the threshold leave a new breaker closed with that many failures counted |
| CircuitBreakers.ThresholdFailuresOpen | backend/app/middleware/circuit_breaker.py:116-122 | exactly `failure_threshold` failures in a row open a new breaker, stamped with the last failure time |
| CircuitBreakers.RecoveryCloses | backend/app/middleware/circuit_breaker.py:70-100 | an open breaker past its timeout is admitted half-open with the success count reset; fewer than `success_threshold` successes keep it half-open counting them, and the `success_threshold`-th (the first, for a threshold below one) closes it with both counts reset, for every threshold |
| CircuitBreakers.SuccessesCount | backend/app/middleware/circuit_breaker.py:94-100 | below the threshold, each success while half-open adds one to the success count and nothing else |
| CircuitBreakers.HalfOpenFailureReopens | backend/app/middleware/circuit_breaker.py:111-115 | a failure while half-open reopens the breaker, and calls are rejected again until the timeout |
| CircuitBreakers.UncountedLeavesState | backend/app/middleware/circuit_breaker.py:87-89 | an exception outside `expected_exception` is re-raised and leaves the breaker as it was |
| CircuitBreakers.CallStepKeepsInv | backend/app/middleware/circuit_breaker.py:53-89 | a call keeps the breaker invariant |
| CircuitBreakers.Acquire | backend/app/middleware/circuit_breaker.py:68 | acquiring a non-reentrant lock returns exactly when the thread does not already hold it |
| CircuitBreakers.AsWrittenBlocks | backend/app/middleware/circuit_breaker.py:68-107 | as written, an admitted call blocks exactly when its function returns or raises an expected exception |
| CircuitBreakers.FirstSuccessBlocks | backend/app/middleware/circuit_breaker.py:80-93 | the first successful call on a new breaker blocks as written, where the intended step returns its value |
| CircuitBreakers.CallCorrected | backend/app/middleware/circuit_breaker.py:53-122 | with the handlers run under the lock already held, every call finishes with the transitions of `CallStep` and keeps the invariant |
| CircuitBreakers.Operation.Run | backend/app/middleware/circuit_breaker.py:81 | the guarded function is called once and gives its next outcome |
| CircuitBreakers.CircuitBreaker.constructor | backend/app/middleware/circuit_breaker.py:26-51 | a new breaker is closed with no counts and no failure time |
| CircuitBreakers.CircuitBreaker.Call | backend/app/middleware/circuit_breaker.py:53-89 | the function runs exactly once unless the call is rejected, and not at all when it is; the new state and result are those of `CallStep`; the invariant is kept |
| CircuitBreakers.CircuitBreaker.OnSuccessUpdate | backend/app/middleware/circuit_breaker.py:91-103 | the fields become `OnSuccess` of the old ones |
| CircuitBreakers.CircuitBreaker.OnFailureUpdate | backend/app/middleware/circuit_breaker.py:105-122 | the fields become `OnFailure` of the old ones |
| CircuitBreakers.CircuitBreaker.GetState | backend/app/middleware/circuit_breaker.py:124-126 | the current state |
| CircuitBreakers.CircuitBreaker.ResetBreaker | backend/app/middleware/circuit_breaker.py:128-134 | closed, both counts zero, no failure time |
| CircuitBreakers.CircuitBreakerManager.GetBreaker | backend/app/middleware/circuit_breaker.py:147-162 | an existing breaker is returned unchanged and its settings ignored; an unknown name gets a new breaker with the given settings, and no other entry changes |
| CircuitBreakers.CircuitBreakerManager.ResetBreaker | backend/app/middleware/circuit_breaker.py:164-167 | a known breaker is reset; an unknown name changes nothing |
| CircuitBreakers.CircuitBreakerManager.constructor | backend/app/middleware/circuit_breaker.py:143-144 | the manager starts with no breakers |
| RateLimiting.Refill | backend/app/middleware/rate_limit.py:45-49 | the refilled level is the old level plus elapsed time times the rate, capped at the capacity |
| RateLimiting.ConsumeStep | backend/app/middleware/rate_limit.py:43-55 | after the refill, n tokens are taken exactly when at least n are there; otherwise the refilled level is kept; the refill time becomes now |
| RateLimiting.ConsumeInBounds | backend/app/middleware/rate_limit.py:43-55 | with time moving forward and a non-negative request, the level stays between 0 and the capacity |
| RateLimiting.ConsumeConserves | backend/app/middleware/rate_limit.py:43-55 | what is left plus what was granted is at most the old level plus the refill |
| RateLimiting.DrainConserves | backend/app/middleware/rate_limit.py:43-55 | over any sequence of calls, what is left plus everything granted is at most the starting level plus the refill over the whole time |
| RateLimiting.DrainInBounds | backend/app/middleware/rate_limit.py:43-55 | through any chronological sequence of calls the level stays between 0 and the capacity |
| RateLimiting.GrantedWithinBudget | backend/app/middleware/rate_limit.py:14-55 | from a full bucket, the tokens granted over a window never exceed the capacity plus the refill over the window |
| RateLimiting.TokenBucket.constructor | backend/app/middleware/rate_limit.py:19-31 | a new bucket starts full, refilled at the time of creation |
| RateLimiting.TokenBucket.Consume | backend/app/middleware/rate_limit.py:33-55 | the result and the new level are those of `ConsumeStep` |
| RateLimiting.TokenBucket.GetAvailableTokens | backend/app/middleware/rate_limit.py:57-70 | the same refill as `consume`, stored, with nothing taken |
| RateLimiting.ClientIp | backend/app/middleware/rate_limit.py:99-123 | the first X-Forwarded-For entry, stripped and comma-free; else X-Real-IP; else the client host; else "unknown" |
| RateLimiting.RateLimiter.constructor | backend/app/middleware/rate_limit.py:79-97 | a full global bucket with the global settings, no per-IP buckets yet |
| RateLimiting.RateLimiter.GetIpBucket | backend/app/middleware/rate_limit.py:125-142 | an existing bucket is returned and nothing changes; an unknown IP gets a new full bucket from the per-IP settings, and no other entry changes |
| RateLimiting.RateLimiter.IsAllowed | backend/app/middleware/rate_limit.py:144-178 | disabled: allowed and nothing consumed; else one global token, and an empty global bucket refuses with the global message without touching any IP bucket; else one token from the client's bucket decides, with the IP message on refusal; other IPs' buckets are unchanged |
| RateLimiting.RateLimiter.Dispatch | backend/app/middleware/rate_limit.py:144-221 | "/health" passes without consuming anything; otherwise a refusal carries the limiter's message, a disabled limiter lets everything through, and an empty global bucket refuses with the global message and touches no IP bucket; when the global bucket grants, one token from the client IP's bucket (created full on first use) decides between passing and the IP message, that bucket's new state is the consume step's, and every other IP's bucket is unchanged |
| Degradation.FallbackResponse | backend/app/middleware/degradation.py:13-36 | the wrapper returns the function's result wherever it returns, and the default wherever it raises |
| Degradation.FallbackNeverRaises | backend/app/middleware/degradation.py:26-34 | the wrapper never raises, so wrapping it again changes nothing |
| Degradation.FallbackOnlyOnError | backend/app/middleware/degradation.py:26-34 | a result other than the default is the function's own result |
| Degradation.BreakerFallback.Invoke | backend/app/middleware/degradation.py:60-73 | the call goes through the breaker with its transitions; the function's result is returned, and any exception, the breaker's rejection included, becomes the fallback value |
| Degradation.CircuitBreakerWithFallback | backend/app/middleware/degradation.py:39-75 | the named breaker is fetched, or created from the given settings, once at decoration time, and captured with the fallback value |
| Degradation.DegradationStrategy.Execute | backend/app/middleware/degradation.py:93-131 | the main function's result; if it raises, the fallback function's result on the same arguments; if there is none or it raises too, the fallback value |
| Degradation.FallbackValueNotForwarded | backend/app/middleware/degradation.py:112-131 | two calls differing only in the fallback value agree unless both functions fail, and then each returns its own value |
| Degradation.ExecuteWithoutFallback | backend/app/middleware/degradation.py:84-131 | without a fallback function, `execute` is `fallback_response` applied to the main function |
| Degradation.BreakerFallback.constructor | backend/app/middleware/degradation.py:39-60 | the decorated function keeps the breaker it looked up and the fallback value |
| Auth.FirstWith | backend/app/api/v1/auth.py:83-86 | the key found holds a record with that username and no earlier key does; `None` exactly when no key in the table has that username |
| Auth.Lookup | backend/app/api/v1/auth.py:82-86 | the scan finds a record with the username, and finds nothing exactly when no record has it |
| Auth.Apply | backend/app/api/v1/auth.py:251-254 | for `UpdateProfile`, which applies this to the found record: the id, password and creation time never change; a field left unset or null keeps its stored value and a set field takes the new one; an empty update changes nothing |
| Auth.CurrentUserInfo | backend/app/api/v1/auth.py:189-216 | the id and username come from the token; without a stored record the response carries only those, otherwise it carries the stored profile fields and the token's user type, "registered" by default |
| Auth.RegisterConflict | backend/app/api/v1/auth.py:133-140 | registration is refused exactly when some record already has the username, and then with 409 "该账号已被注册" |
| Auth.RegisterAdds | backend/app/api/v1/auth.py:142-157 | for `Register`: a registration adds the new record under "email_" + id, with gender "other" and no travel preferences, and keeps every other record |
| Auth.RegisterKeepsUnique | backend/app/api/v1/auth.py:133-157 | registration keeps usernames unique across the table |
| Auth.RegisterThenLogin | backend/app/api/v1/auth.py:82-117 | after a registration the same username and password log in, as the new user |
| Auth.LoginIff | backend/app/api/v1/auth.py:82-93 | for `Login`: login succeeds exactly when the first record with the username holds the password; an unknown user and a wrong password both fail with 401 "账号或密码错误" |
| Auth.ChangeThenLogin | backend/app/api/v1/auth.py:287-315 | for `ChangePassword`: after a password change the new password logs in and a different old one does not |
| Auth.PasswordChanged | backend/app/api/v1/auth.py:310-311 | the change keeps the table's keys, the lookup finds the same record, and that record holds the new password |
| Auth.LoginWith | backend/app/api/v1/auth.py:88-93 | where the lookup finds a record, login succeeds exactly with that record's password |
| Auth.FirstWithSameNames | backend/app/api/v1/auth.py:290-294 | changing fields other than the username does not change which record a lookup finds |
| Auth.WrongOldPassword | backend/app/api/v1/auth.py:302-308 | a wrong old password is refused with 401 "原密码错误" |
| Auth.UpdateBreaksUnique | backend/app/api/v1/auth.py:250-254 | a profile update does not re-check the username: renaming one user to another's name leaves two records with the same username |
| Auth.GendersStayValid | backend/app/api/v1/auth.py:35-39 | registration stores "other" and an update stores only a gender the validator passed, so every stored gender stays None, "male", "female" or "other" |
| Auth.UserStore.constructor | backend/app/api/v1/auth.py:64-65 | the table starts empty |
| Auth.UserStore.FindUser | backend/app/api/v1/auth.py:82-86 | the loop returns the first key, in table order, whose record has the username |
| Auth.UserStore.RegisterUser | backend/app/api/v1/auth.py:119-175 | a refused registration leaves the table as it was and fails with 409; otherwise the table becomes the registered one and the response carries the id and username |
| Auth.UserStore.LoginUser | backend/app/api/v1/auth.py:67-117 | the result is the login's result on the current table, which is left as it was |
| Auth.UserStore.GetCurrentUserInfo | backend/app/api/v1/auth.py:177-216 | the result is the current user's info on the current table |
| Auth.UserStore.UpdateUserProfile | backend/app/api/v1/auth.py:218-268 | without a record: 404 "用户不存在" and no change; otherwise the found record is updated in place and the response shows it |
| Auth.UserStore.ChangeUserPassword | backend/app/api/v1/auth.py:270-315 | a refusal (404 or 401) changes nothing; otherwise the found record holds the new password and the answer is "密码修改成功" |
| ContextManagement.InitialContext | backend/app/services/context_manager.py:16-32 | a new context carries the request id, version 1, an empty history, no agent contexts, no shared data and no memory context |
| ContextManagement.AfterUpdate | backend/app/services/context_manager.py:35-72 | the version goes up by one and one "update_context" history record is appended; the agent's log gains the entry and its last-updated time; an agent seen before keeps its creation time; other agents, shared data and memory are untouched |
| ContextManagement.AgentContextOf | backend/app/services/context_manager.py:76-86 | an agent's context is found exactly when that agent has updated the context |
| ContextManagement.AfterShare | backend/app/services/context_manager.py:97-117 | the key is set (or overwritten) with the data, source agent and time; the version and history do not change |
| ContextManagement.SharedDataOf | backend/app/services/context_manager.py:121-134 | a shared key gives back its data; an absent key gives None |
| ContextManagement.AllSharedData | backend/app/services/context_manager.py:136-143 | the result has the same keys in the same order, each mapped to its data |
| ContextManagement.AfterAddMemory | backend/app/services/context_manager.py:145-161 | the memory context exists afterwards and the one entry is overwritten; the version, history, agents and shared data do not change |
| ContextManagement.MemoryContextOf | backend/app/services/context_manager.py:163-170 | an empty dict until memory is first added, then the stored memory context |
| ContextManagement.CreateSnapshot | backend/app/services/context_manager.py:172-184 | the snapshot holds a full copy of the context and the time, and its id is "{request_id}_snapshot_{version}"; this is the intended deep copy, the corrected half of the snapshot finding, while `SeenAtRestore` gives what the shallow copy at line 182 shows at restore time |
| ContextManagement.AfterRestore | backend/app/services/context_manager.py:186-196 | a snapshot without a context changes nothing; otherwise its context replaces the current one with a new update time |
| ContextManagement.SnapshotIdsDistinct | backend/app/services/context_manager.py:180 | snapshots of one request taken at different versions have different ids |
| ContextManagement.LastWriterWins | backend/app/services/context_manager.py:111-115 | of two writes to a shared key, the later one is read back, and other keys keep their values |
| ContextManagement.VersionCountsUpdates | backend/app/services/context_manager.py:49-72 | over any sequence of operations without a restore, the version and the history length each grow by exactly the number of updates |
| ContextManagement.VersionMatchesHistory | backend/app/services/context_manager.py:28-29 | without a restore, a manager's version is always one more than its number of history entries |
| ContextManagement.RestoreUndoes | backend/app/services/context_manager.py:172-196 | with the whole context copied, restoring a snapshot after any operations brings back the snapshotted context, version included; only the update time differs |
| ContextManagement.SeenAtRestore | backend/app/services/context_manager.py:182 | with the shallow copy, the snapshot keeps its version, creation time and request id, but reads the live history, agent contexts and shared data, and a memory context only if one existed when it was taken |
| ContextManagement.AliasedRestoreKeepsUpdate | backend/app/services/context_manager.py:182-195 | with the shallow copy, restoring the snapshot taken before an update brings the version back but keeps the update in the history and in the updating agent's context |
| ContextManagement.RunValid | backend/app/services/context_manager.py:35-196 | the operations keep every dictionary of the context well formed |
| ContextManagement.ContextManager.constructor | backend/app/services/context_manager.py:16-32 | a new manager holds the initial context of its request |
| ContextManagement.ContextManager.UpdateContext | backend/app/services/context_manager.py:35-72 | the context becomes the updated one |
| ContextManagement.ContextManager.GetAgentContext | backend/app/services/context_manager.py:76-86 | reads the agent's context from the current context |
| ContextManagement.ContextManager.GetAllContext | backend/app/services/context_manager.py:88-95 | returns the current context |
| ContextManagement.ContextManager.ShareData | backend/app/services/context_manager.py:97-117 | the context becomes the one with the key shared |
| ContextManagement.ContextManager.GetSharedData | backend/app/services/context_manager.py:121-134 | reads one shared key from the current context |
| ContextManagement.ContextManager.GetAllSharedData | backend/app/services/context_manager.py:136-143 | reads all shared data from the current context |
| ContextManagement.ContextManager.AddMemoryContext | backend/app/services/context_manager.py:145-161 | the context becomes the one with the memory entry set |
| ContextManagement.ContextManager.GetMemoryContext | backend/app/services/context_manager.py:163-170 | reads the memory context of the current context |
| ContextManagement.ContextManager.CreateSnapshotOf | backend/app/services/context_manager.py:172-184 | the snapshot of the current context under this manager's request id, taken as the intended full copy (`CreateSnapshot`); the code as written shares the nested history and dicts, as `AliasedRestoreKeepsUpdate` states |
| ContextManagement.ContextManager.RestoreFromSnapshot | backend/app/services/context_manager.py:186-196 | the context becomes the restored one |
| ContextManagement.ContextRegistry.constructor | backend/app/services/context_manager.py:199-200 | the registry starts empty |
| ContextManagement.ContextRegistry.GetContextManager | backend/app/services/context_manager.py:203-215 | a known request id gives back its manager with the registry unchanged; an unknown one gets a new manager at the initial context, registered under that id |
| ContextManagement.ContextRegistry.RemoveContextManager | backend/app/services/context_manager.py:218-227 | the id is no longer registered; an unknown id changes nothing |
| ContextManagement.RemoveThenGet | backend/app/services/context_manager.py:203-227 | after a removal, asking for the same request id yields a new manager at version 1 with an empty history |
| Memory.RetrievePreferences | backend/app/services/memory_service.py:182-205 | an unknown user gives an empty map; with a type, that type's list (empty when absent); without one, the whole long-term memory |
| Memory.RetrieveFeedback | backend/app/services/memory_service.py:207-226 | an unknown user gives nothing; otherwise the last `limit` feedback entries in stored order, and all of them for a zero limit, as `[-0:]` does |
| Memory.RetrieveShortTerm | backend/app/services/memory_service.py:228-251 | an unknown user gives an empty map; with a key, that entry (absent for `{}`); without one, the whole short-term memory |
| Memory.MatchScorePositive | backend/app/services/memory_service.py:289-291 | the preference match is positive exactly when the two lists share a preference |
| Memory.Candidate | backend/app/services/memory_service.py:275-297 | a feedback entry is kept only with a non-empty trip dict whose destination contains the searched one ignoring case and with a positive match; the result carries that trip, the entry, the score and the user |
| Memory.CandidatesOfSound | backend/app/services/memory_service.py:275-297 | every candidate of one user comes from one of that user's feedback entries that passes the test |
| Memory.CandidatesOverSound | backend/app/services/memory_service.py:272-297 | every candidate comes from a feedback entry of one of the scanned users that passes the test |
| Memory.CandidatesOfComplete | backend/app/services/memory_service.py:275-297 | every feedback entry of a user that passes the similarity test is among that user's candidates |
| Memory.CandidatesOverComplete | backend/app/services/memory_service.py:272-297 | every stored feedback entry of any scanned user that passes the similarity test is found by the scan |
| Memory.SimilarTripsSpec | backend/app/services/memory_service.py:253-301 | for `SimilarTrips`: every similar trip comes from a stored feedback entry that passes the test, the best scores come first, and there are at most `limit` |
| Memory.SimilarTripsStable | backend/app/services/memory_service.py:300 | the sort is stable: trips with equal scores keep the order of users and feedback entries |
| Memory.SimilarTripsTop | backend/app/services/memory_service.py:300-301 | for `SimilarTrips`: the result is the sorted candidate list cut to `limit`, exactly `min(limit, n)` trips for a non-negative limit, all of them when `limit` covers them, and no candidate left out scores higher than one kept |
| Memory.TypedExperiences | backend/app/services/memory_service.py:396-397 | with a type, the last `limit` experiences of that type, in stored order |
| Memory.RecentExperiencesSpec | backend/app/services/memory_service.py:399-403 | for `RecentExperiences`: without a type, experiences of all types, newest timestamp first, at most `limit`, each one a stored experience |
| Memory.RecentExperiencesTop | backend/app/services/memory_service.py:399-403 | for `RecentExperiences`: the result is the newest-first list of all experiences cut to `limit`, exactly `min(limit, n)` entries for a non-negative limit, all of them when `limit` covers them, and none left out is newer than one kept |
| Memory.Hits | backend/app/services/memory_service.py:437-441 | the items kept under a key are exactly the stored items whose text mentions the query ignoring case: each mentioning item is kept as many times as it is stored, and no other item is kept |
| Memory.HitsEmpty | backend/app/services/memory_service.py:437-441 | a list has hits exactly when one of its items mentions the query |
| Memory.LongTermSearchMembers | backend/app/services/memory_service.py:434-441 | for `LongTermSearch`: a long-term key is reported exactly when it is scanned and some item stored under it mentions the query, and then with that list's hits |
| Memory.ShortTermSearchMembers | backend/app/services/memory_service.py:444-447 | for `ShortTermSearch`: the user part holds a key exactly when the long-term pass found it or it is `short_term_<key>` for a stored short-term entry that mentions the query; every other key keeps its long-term value |
| Memory.ShortTermSearchHit | backend/app/services/memory_service.py:444-447 | a short-term entry that mentions the query is reported under `short_term_<key>` with that entry, overwriting a long-term key of the same name |
| Memory.RetrieveKnowledge | backend/app/services/memory_service.py:336-350 | for `MemoryService.RetrieveDestinationKnowledge`: a destination's stored entry when it has one, else nothing (`{}`) |
| Memory.KnowledgeThenRetrieve | backend/app/services/memory_service.py:305-350 | after a destination store, retrieval gives the earlier knowledge plus the new timed entry, the original creation stamp and the new update time; every other destination reads as before |
| Memory.KnowledgeSearchSound | backend/app/services/memory_service.py:449-453 | only destinations whose name contains the query ignoring case are reported, with their stored entries |
| Memory.KnowledgeSearchComplete | backend/app/services/memory_service.py:449-453 | every stored destination whose name contains the query ignoring case is reported |
| Memory.MemoryService.constructor | backend/app/services/memory_service.py:19-60 | a service without memory files starts with no users, destinations or experiences |
| Memory.MemoryService.StoreUserPreference | backend/app/services/memory_service.py:80-118 | the caller's dict gets the timestamp and is appended to the user's list for the type; a new user is created with both meta stamps; knowledge is untouched |
| Memory.MemoryService.StoreUserFeedback | backend/app/services/memory_service.py:120-152 | the feedback entry is appended to the user's feedback history; a new user starts with empty meta memory; knowledge is untouched |
| Memory.MemoryService.StoreShortTermContext | backend/app/services/memory_service.py:154-180 | the short-term entry for the key is set to the data and the time; knowledge is untouched |
| Memory.MemoryService.StoreDestinationKnowledge | backend/app/services/memory_service.py:305-334 | the timed entry is appended to the destination's knowledge, which is created on first use; users and experiences are untouched |
| Memory.MemoryService.StoreExperience | backend/app/services/memory_service.py:352-377 | the timed entry is appended to the type's list; users and destinations are untouched |
| Memory.MemoryService.RetrieveSimilarTrips | backend/app/services/memory_service.py:253-301 | the nested loops compute the similar trips of the current memory |
| Memory.MemoryService.RetrieveExperiences | backend/app/services/memory_service.py:379-403 | with a type, that type's last experiences; without one, the newest experiences over all types |
| Memory.MemoryService.SearchMemory | backend/app/services/memory_service.py:407-455 | the user part is the long-term then short-term search of that user (empty without a known user id), and the knowledge part is the destination search |
| Memory.ScanUsers | backend/app/services/memory_service.py:272-297 | the outer loop collects the candidates user by user in table order |
| Memory.ScanFeedback | backend/app/services/memory_service.py:275-297 | the inner loop collects one user's candidates in stored order |
| Memory.SearchLongTerm | backend/app/services/memory_service.py:434-441 | the loop gives one list per long-term key with at least one mentioning item |
| Memory.SearchItems | backend/app/services/memory_service.py:437-441 | the loop keeps the mentioning items of one list, in order |
| Memory.SearchShortTerm | backend/app/services/memory_service.py:444-447 | the loop sets `short_term_<key>` for every short-term entry that mentions the query |
| Memory.SearchKnowledge | backend/app/services/memory_service.py:450-453 | the loop reports every destination whose name mentions the query |
| Memory.PreferenceAppends | backend/app/services/memory_service.py:104-112 | a preference store grows that user's list for the type by exactly the stamped entry and changes no other user and no other type |
| Memory.StampedFields | backend/app/services/memory_service.py:111 | the stamp is written into the caller's dict and its other entries are kept |
| Memory.FeedbackEntryFields | backend/app/services/memory_service.py:144-148 | the entry holds `trip_id`, `timestamp` and the feedback's keys, and keys in the feedback override the first two |
| Memory.FeedbackThenRetrieve | backend/app/services/memory_service.py:120-226 | after a feedback store, the newest entry is the last one retrieved |
| Memory.ShortTermThenRetrieve | backend/app/services/memory_service.py:154-251 | a short-term store is read back as it was written |
| Memory.KnowledgeAppends | backend/app/services/memory_service.py:320-331 | a destination entry keeps its creation stamp, grows by exactly the new entry and takes the new update time |
| Memory.UnknownUser | backend/app/services/memory_service.py:197-244 | an unknown user reads as an empty preference map, an empty feedback list and an empty short-term map |
| VectorMemory.Iterated | backend/app/services/vector_memory_service.py:516 | a list is iterated as its items, and only lists, strings and dicts can be iterated at all |
| VectorMemory.SpacedShape | backend/app/services/vector_memory_service.py:524 | the space-joined text starts with its first part and contains every part |
| VectorMemory.PreferenceTextShape | backend/app/services/vector_memory_service.py:508-524 | the preference text fails exactly when the travel or hotel preferences cannot be joined; otherwise it starts with the preference type and shows every field present; with no fields it is the type line alone |
| VectorMemory.TripTextShape | backend/app/services/vector_memory_service.py:526-551 | the trip text fails exactly when the preferences cannot be joined or the days cannot be walked; otherwise it starts with the header and shows the destination, the title, and the time only when both dates are given |
| VectorMemory.TripAttractionsExample | backend/app/services/vector_memory_service.py:543-549 | one day with two named attractions gives the attractions part with both names in visiting order |
| VectorMemory.FeedbackTextOrder | backend/app/services/vector_memory_service.py:553-566 | the feedback text lists rating, comments and modifications in that order, whatever order the dict holds them in |
| VectorMemory.FeedbackTextShape | backend/app/services/vector_memory_service.py:553-566 | the feedback text starts with its header, shows every field present, and is the header alone for a dict without those fields |
| VectorMemory.DestinationTextShape | backend/app/services/vector_memory_service.py:568-584 | the destination text fails exactly when the highlights cannot be joined; otherwise it starts with the destination and shows every field present |
| VectorMemory.ExperienceTextShape | backend/app/services/vector_memory_service.py:586-602 | the experience text fails exactly when the tags cannot be joined; otherwise it starts with the experience type and shows every field present |
| VectorMemory.JoinTextCases | backend/app/services/vector_memory_service.py:516 | `", ".join` of a string joins its characters, of a list of strings joins the strings, and raises for a number or a list holding one |
| VectorMemory.EntriesFound | backend/app/services/vector_memory_service.py:318-324 | without a type list an entry of the user is always kept and another user's never is; with a list, exactly the listed types are kept |
| VectorMemory.Matching | backend/app/services/vector_memory_service.py:316-324 | the kept entries pass the user and type filter, come from the store, and include every stored entry that passes |
| VectorMemory.RecentSpec | backend/app/services/vector_memory_service.py:309-332 | the recent memories pass the filter, are newest first, number at most `limit`, come from the store, and are all the matching entries when `limit` is large enough |
| VectorMemory.RecentOrdered | backend/app/services/vector_memory_service.py:327-332 | a prefix of the newest-first order is itself newest first |
| VectorMemory.Passing | backend/app/services/vector_memory_service.py:281-298 | every hit that survives the loop's checks passes the filter and carries a similarity score, and there are no more of them than hits |
| VectorMemory.ScoredTwice | backend/app/services/vector_memory_service.py:297 | writing a second score replaces the first |
| VectorMemory.ScanTakes | backend/app/services/vector_memory_service.py:280-301 | the loop returns the surviving hits in ranking order, each with its score, cut at `limit`; the check follows the append, so a zero or negative limit still returns the first survivor |
| VectorMemory.ScanReturnsAllPassing | backend/app/services/vector_memory_service.py:280-301 | with no more survivors than `limit`, every one of them is returned |
| VectorMemory.ScanBounded | backend/app/services/vector_memory_service.py:280-301 | the results never exceed a positive `limit`, and each passes the filter and carries its score |
| VectorMemory.ScanRescores | backend/app/services/vector_memory_service.py:297 | the loop writes back only scores: the store keeps its keys and every entry is either untouched or its old self with a new score |
| VectorMemory.ScanFrame | backend/app/services/vector_memory_service.py:285-297 | an entry whose id no hit names keeps its value |
| VectorMemory.ScanResultsStored | backend/app/services/vector_memory_service.py:285-298 | each returned entry is the one left in the store, so a read changes the stored metadata |
| VectorMemory.ScanHits | backend/app/services/vector_memory_service.py:280-301 | the loop computes the results and the metadata afterwards |
| VectorMemory.UserRetrievalSpec | backend/app/services/vector_memory_service.py:246-307 | a user retrieval returns only that user's entries of the listed types, at most a positive `limit` of them; an empty query goes to the recent memories and changes nothing; a failed search returns nothing and changes nothing; the store keeps its keys |
| VectorMemory.KnowledgeRetrievalSpec | backend/app/services/vector_memory_service.py:408-460 | a knowledge retrieval returns only entries of the listed types, at most a positive `limit`; a failed search returns nothing and changes nothing; the store keeps its keys |
| VectorMemory.SearchWidthBounds | backend/app/services/vector_memory_service.py:276 | a search asks for the smaller of the index size and twice the limit |
| VectorMemory.IdsIndex | backend/app/services/vector_memory_service.py:154-158 | the metadata key of the i-th vector is the decimal text of i |
| VectorMemory.IdsFresh | backend/app/services/vector_memory_service.py:154-158 | the key of the next vector is not yet taken |
| VectorMemory.VectorMemoryService.constructor | backend/app/services/vector_memory_service.py:23-90 | a service without index files starts with both indexes and both metadata maps empty |
| VectorMemory.VectorMemoryService.AddUserEntry | backend/app/services/vector_memory_service.py:154-158 | the user index grows by one and the entry is stored under the old count; the knowledge side is untouched |
| VectorMemory.VectorMemoryService.AddKnowledgeEntry | backend/app/services/vector_memory_service.py:356-360 | the knowledge index grows by one and the entry is stored under the old count; the user side is untouched |
| VectorMemory.VectorMemoryService.StoreUserPreference | backend/app/services/vector_memory_service.py:132-169 | a text that cannot be built or an add that raises stores nothing; otherwise one preference entry is added under the next id |
| VectorMemory.VectorMemoryService.StoreUserTrip | backend/app/services/vector_memory_service.py:171-205 | a text that cannot be built or an add that raises stores nothing; otherwise one trip entry is added under the next id |
| VectorMemory.VectorMemoryService.StoreUserFeedback | backend/app/services/vector_memory_service.py:207-244 | only a raising add stores nothing; otherwise one feedback entry with the trip id is added under the next id |
| VectorMemory.VectorMemoryService.StoreDestinationKnowledge | backend/app/services/vector_memory_service.py:336-370 | a text that cannot be built or an add that raises stores nothing; otherwise one destination entry is added to the knowledge index |
| VectorMemory.VectorMemoryService.StoreTravelExperience | backend/app/services/vector_memory_service.py:372-406 | a text that cannot be built or an add that raises stores nothing; otherwise one experience entry is added to the knowledge index |
| VectorMemory.VectorMemoryService.RetrieveUserMemories | backend/app/services/vector_memory_service.py:246-307 | the result and the user metadata afterwards are the user retrieval's; the indexes and the knowledge side are untouched |
| VectorMemory.VectorMemoryService.RetrieveKnowledgeMemories | backend/app/services/vector_memory_service.py:408-460 | the result and the knowledge metadata afterwards are the knowledge retrieval's; the user side is untouched |
| VectorMemory.VectorMemoryService.HybridSearch | backend/app/services/vector_memory_service.py:464-504 | both keys are always present, each list is filled only when its flag is set, and only a retrieval that runs can change its metadata |
| VectorMemory.VectorMemoryService.StatsCountEntries | backend/app/services/vector_memory_service.py:610-617 | for `Stats` (`get_stats`): the reported counts are the numbers of stored entries |
| AgentCommunication.AgentMessage.MessageId | backend/app/agents/agent_communication.py:48 | the id is the sender, the receiver and the creation time's whole seconds, joined by underscores |
| AgentCommunication.DeliverCases | backend/app/agents/agent_communication.py:118-153 | for `Deliver`: an unknown receiver gets nothing; a handler registered for the message type takes precedence; otherwise the agent's own `handle_message` answers if it has one, and nothing does if it has not |
| AgentCommunication.FaultIsNone | backend/app/agents/agent_communication.py:138-150 | a handler that raises is reported to the sender as `None` |
| AgentCommunication.AddresseesMembers | backend/app/agents/agent_communication.py:177-179 | a broadcast addresses exactly the registered names other than the sender and the excluded |
| AgentCommunication.BroadcastSentAt | backend/app/agents/agent_communication.py:181-188 | the i-th addressee gets the i-th message, of the broadcast's type and content, stamped at its place in the log |
| AgentCommunication.TruthyRepliesExact | backend/app/agents/agent_communication.py:188-193 | every kept reply is a truthy response to a sent message, tagged with its receiver, and every truthy response is kept |
| AgentCommunication.BroadcastShape | backend/app/agents/agent_communication.py:155-195 | for `BroadcastOver`: the broadcast loop sends one message to each addressee in registration order and keeps exactly the truthy responses |
| AgentCommunication.Merge | backend/app/agents/agent_communication.py:296-299 | two numbers merge to their mean; anything else is replaced by the suggestion |
| AgentCommunication.ApplySuggestions | backend/app/agents/agent_communication.py:293-299 | applying suggestions never adds or removes a key of the proposal |
| AgentCommunication.SuggestionsOf | backend/app/agents/agent_communication.py:292-293 | non-empty suggestions come from a feedback dict's "suggestions" dict |
| AgentCommunication.ApplyFeedback | backend/app/agents/agent_communication.py:291-299 | one feedback entry keeps the proposal's keys and their order |
| AgentCommunication.Integrated | backend/app/agents/agent_communication.py:272-301 | integrating feedback keeps the proposal's keys and their order |
| AgentCommunication.UnsuggestedKeyUnchanged | backend/app/agents/agent_communication.py:291-299 | a key that no feedback suggests keeps its value |
| AgentCommunication.LastFeedbackDecides | backend/app/agents/agent_communication.py:291-299 | where the last feedback suggests a value for a key, the key ends as the merge of the value before it and the suggestion |
| AgentCommunication.MergeHalvesDistance | backend/app/agents/agent_communication.py:297 | averaging with a numeric suggestion halves the distance to it |
| AgentCommunication.Collect | backend/app/agents/agent_communication.py:226-244 | a round's responses form a well-formed dict |
| AgentCommunication.CollectOnlyRegistered | backend/app/agents/agent_communication.py:227-244 | only registered participants can appear among a round's responses |
| AgentCommunication.FeedbackList | backend/app/agents/agent_communication.py:259 | there is one feedback per response |
| AgentCommunication.RoundStep | backend/app/agents/agent_communication.py:223-263 | a round either keeps the round number, when it agrees or breaks, or moves to the next one exactly when it neither agrees nor breaks |
| AgentCommunication.NegotiateFrom | backend/app/agents/agent_communication.py:223-263 | the loop ends in a state where it cannot continue |
| AgentCommunication.NoParticipantsAgree | backend/app/agents/agent_communication.py:247-255 | with no participants the first round reaches consensus at once, with the proposal unchanged and no message sent |
| AgentCommunication.RoundOutcome | backend/app/agents/agent_communication.py:247-263 | for `NegotiateSpec`, one round of it: a round moves on exactly when every participant answered and some disagreed; an agreeing round keeps the proposal and the round number; a breaking round had a missing answer |
| AgentCommunication.ThreeFailedRoundsGiveFour | backend/app/agents/agent_communication.py:218-270 | three fully answered rounds without consensus end the negotiation with `rounds` equal to 4 and no consensus |
| AgentCommunication.UnregisteredParticipantBreaks | backend/app/agents/agent_communication.py:227-263 | an unregistered participant ends the negotiation after the first round without consensus |
| AgentCommunication.RoundBreaks | backend/app/agents/agent_communication.py:262-263 | a round with a missing answer ends the loop and keeps its responses |
| AgentCommunication.RoundAgrees | backend/app/agents/agent_communication.py:247-255 | a fully answered round where everyone agrees reaches consensus |
| AgentCommunication.RoundIntegrates | backend/app/agents/agent_communication.py:256-261 | a fully answered round with a disagreement integrates the feedback into the proposal and counts the round |
| AgentCommunication.AllAgreeExec | backend/app/agents/agent_communication.py:249-252 | `all(...)` over the responses holds exactly when every response agrees |
| AgentCommunication.FilterHistory | backend/app/agents/agent_communication.py:303-332 | the filtered history is never longer than the log |
| AgentCommunication.FilterMembers | backend/app/agents/agent_communication.py:318-330 | a message is returned exactly when it is in the log and passes both filters |
| AgentCommunication.FilterAppend | backend/app/agents/agent_communication.py:318-330 | filtering keeps the log's order: it commutes with appending to the log |
| AgentCommunication.NoFilterIsWholeLog | backend/app/agents/agent_communication.py:318-332 | without filters the whole log comes back |
| AgentCommunication.CommunicationHub.constructor | backend/app/agents/agent_communication.py:69-73 | the hub starts with no agents, no handlers and an empty log |
| AgentCommunication.CommunicationHub.RegisterAgent | backend/app/agents/agent_communication.py:76-85 | the name is bound to the instance and its handler table is reset; the log is untouched |
| AgentCommunication.CommunicationHub.RegisterMessageHandler | backend/app/agents/agent_communication.py:88-105 | the handler is recorded for the agent and type, replacing any earlier one; agents and log are untouched |
| AgentCommunication.CommunicationHub.GetMessageHistory | backend/app/agents/agent_communication.py:303-332 | a message comes back exactly when it is logged and passes both filters; without filters the whole log comes back |
| AgentCommunication.CommunicationHub.SendMessage | backend/app/agents/agent_communication.py:108-153 | the message is logged first, even for an unknown receiver, and the response is the delivery's |
| AgentCommunication.CommunicationHub.BroadcastMessage | backend/app/agents/agent_communication.py:155-195 | the replies and the logged messages are the broadcast's, and the registries are untouched |
| AgentCommunication.CommunicationHub.IntegrateFeedback | backend/app/agents/agent_communication.py:272-301 | the loop computes the integrated proposal on a copy |
| AgentCommunication.CommunicationHub.ApplyFeedbackEntry | backend/app/agents/agent_communication.py:292-299 | the inner loop applies one feedback entry's suggestions in their order |
| AgentCommunication.CommunicationHub.NegotiationRound | backend/app/agents/agent_communication.py:226-244 | one round asks every registered participant in order, logs each message and keeps the truthy responses |
| AgentCommunication.CommunicationHub.Negotiate | backend/app/agents/agent_communication.py:197-270 | the result and the messages logged are those of the negotiation loop run to its end |
| AgentCommunication.CommunicationHub.BroadcastTo | backend/app/agents/agent_communication.py:177-193 | one pass of the broadcast loop: the sender and the excluded are skipped; anyone else is sent the message, and a truthy reply is kept under the agent's name |
| AgentCommunication.CommunicationHub.AskParticipant | backend/app/agents/agent_communication.py:227-244 | one pass of the negotiation's inner loop: an unregistered participant is skipped; a registered one is sent the round's proposal, and a truthy reply is recorded under its name |
| AgentCommunication.CommunicationHub.PlayRound | backend/app/agents/agent_communication.py:223-262 | one round: everyone is asked; then the round breaks off, reaches consensus, or integrates the feedback and moves on, as the round's specification says |
| EnhancedAgents.Llm.constructor | backend/app/agents/enhanced_agent.py:27-43 | the model client starts with no calls made and answers by its completion oracle |
| EnhancedAgents.Llm.Invoke | backend/app/agents/enhanced_agent.py:208-210 | `llm.invoke(messages)` returns the completion for the turns sent and counts one call |
| EnhancedAgents.StepTurns | backend/app/agents/enhanced_agent.py:222-236 | one tool iteration appends exactly two turns: the assistant's cleaned text, then a user turn with the tool results |
| EnhancedAgents.AlwaysToolsLoop | backend/app/agents/enhanced_agent.py:208-243 | when every completion asks for a tool, the loop runs to the bound with no final answer, one model call per iteration |
| EnhancedAgents.AlwaysToolsRun | backend/app/agents/enhanced_agent.py:208-247 | for `ToolRun`: when every completion asks for a tool, `_run_with_tools` makes `max_tool_iterations + 1` model calls (one when the bound is not positive) and answers with the last |
| EnhancedAgents.DirectAnswer | backend/app/agents/enhanced_agent.py:208-243 | a first completion without tool calls ends the loop at iteration 0 with that completion as the answer, after one model call |
| EnhancedAgents.ToolLoopCalls | backend/app/agents/enhanced_agent.py:208-243 | for `ToolLoop`: the loop makes one model call per completed iteration plus one for the answer that stopped it early |
| EnhancedAgents.ToolLoopTurns | backend/app/agents/enhanced_agent.py:208-243 | the loop only appends to the turns it was given, two per iteration, alternating assistant and user |
| EnhancedAgents.CleanedSingleToken | backend/app/agents/enhanced_agent.py:220-226 | for `Cleaned`: a completion holding one tool token and no other '[' is cleaned to the text around the token |
| EnhancedAgents.RunContextEffects | backend/app/agents/enhanced_agent.py:156-270 | for `RunContext`: a run advances the blackboard version by two with an "info" and a "result" record; only the tool path shares `<name>_result` with the answer |
| EnhancedAgents.DefaultReply | backend/app/agents/enhanced_agent.py:362-399 | for `EnhancedAgent.HandleMessage`: the default reply is "received" from the agent, with the query or request acknowledgement for those two types and no message for the others |
| EnhancedAgents.EnhancedAgent.constructor | backend/app/agents/enhanced_agent.py:27-75 | tool calling is on exactly when enabled and a registry is given; with a hub the agent is registered with handlers for queries and requests only |
| EnhancedAgents.EnhancedAgent.Run | backend/app/agents/enhanced_agent.py:144-195 | without tools, one model call answers; with tools, the answer is the tool loop's; the history gains the input and the answer; the blackboard gets the run's updates |
| EnhancedAgents.EnhancedAgent.RunWithTools | backend/app/agents/enhanced_agent.py:197-273 | the answer and the call count are those of the tool loop followed by the extra call when it ran out; the blackboard gets the result update and the shared answer |
| EnhancedAgents.EnhancedAgent.ToolIterations | backend/app/agents/enhanced_agent.py:205-243 | the `while` loop ends in the state the loop's specification computes |
| EnhancedAgents.EnhancedAgent.LoopStep | backend/app/agents/enhanced_agent.py:208-243 | one pass makes one model call and either ends with the answer or hands on to the next iteration with the two new turns |
| EnhancedAgents.EnhancedAgent.RunToolCalls | backend/app/agents/enhanced_agent.py:219-226 | the calls' results come in call order and each call's token is removed from the text in turn |
| EnhancedAgents.EnhancedAgent.SendMessageToAgent | backend/app/agents/enhanced_agent.py:331-360 | without a hub nothing is sent and the result is `None`; otherwise one message, carrying the blackboard if any, is logged and delivered |
| EnhancedAgents.EnhancedAgent.StoreMemory | backend/app/agents/enhanced_agent.py:401-433 | without a user id or for another type nothing changes; preference, feedback and context go to their store with the defaults "general", "" and "general" |
| SpecializedAgents.AgentNamesDistinct | backend/app/agents/specialized_agents.py:218-406 | the four agents' fixed names are pairwise different |
| SpecializedAgents.RequestObj | backend/app/agents/specialized_agents.py:254-256 | the shared "request" entry is used exactly when it is a non-empty dict |
| SpecializedAgents.AttractionInput | backend/app/agents/specialized_agents.py:253-262 | the input is kept unless there are preferences and it does not mention attractions; then the first two preferences are appended in the fixed phrase |
| SpecializedAgents.AttractionInputFirstTwo | backend/app/agents/specialized_agents.py:258-262 | with preferences `[a, b, ...]` exactly `a` and `b`, comma-joined, are appended |
| SpecializedAgents.AttractionInputNoPreferences | backend/app/agents/specialized_agents.py:253-257 | without a request context the input is unchanged |
| SpecializedAgents.HotelInput | backend/app/agents/specialized_agents.py:322-326 | the input is kept unless the attraction locations are a non-empty text; then the note and at most their first 200 characters are appended |
| SpecializedAgents.DateRange | backend/app/agents/specialized_agents.py:366-371 | the date range is used exactly when both dates are present and non-empty |
| SpecializedAgents.WeatherInput | backend/app/agents/specialized_agents.py:365-372 | the input is kept unless both dates are given; then the range is appended |
| SpecializedAgents.WeatherNeedsBothDates | backend/app/agents/specialized_agents.py:370-372 | a start date alone leaves the input unchanged |
| SpecializedAgents.AttractionNotice | backend/app/agents/specialized_agents.py:276-284 | the notice to the hotel agent holds the completion message and the attraction text |
| SpecializedAgents.ActionRequest | backend/app/agents/specialized_agents.py:431-444 | a peer request carries just its action |
| SpecializedAgents.SearchReply | backend/app/agents/specialized_agents.py:245-248 | a search request is answered with "success" and the run's result |
| SpecializedAgents.ProvideAttractionsNotSearched | backend/app/agents/specialized_agents.py:239-249 | the planner's "provide_attractions" request is not a search request, so the attraction agent runs nothing for it |
| SpecializedAgents.AgreeReply | backend/app/agents/specialized_agents.py:410-418 | the planner's negotiation reply agrees, with an empty feedback dict |
| SpecializedAgents.PlannerReply | backend/app/agents/specialized_agents.py:408-420 | negotiations get the agreement, every other message the default reply |
| SpecializedAgents.PlannerDelivers | backend/app/agents/specialized_agents.py:408-418 | a negotiation sent through the hub to a registered planner comes back as the agreement |
| SpecializedAgents.CollectFromPlanners | backend/app/agents/specialized_agents.py:408-418 | asking distinct planners collects one agreeing reply per participant, in participant order |
| SpecializedAgents.PlannersAgreeInRoundOne | backend/app/agents/specialized_agents.py:408-418 | a negotiation among planners reaches consensus in round 1 on the proposal as sent |
| SpecializedAgents.FirstRoundAgrees | backend/app/agents/agent_communication.py:197-270 | a first round in which every participant answers under its own key and agrees ends the negotiation with consensus |
| SpecializedAgents.PlannerRequests | backend/app/agents/specialized_agents.py:426-444 | the planner asks the attraction agent exactly when "attraction_locations" is not shared and the hotel agent exactly when "hotel_recommendations" is not, attractions first |
| SpecializedAgents.RequestMessages | backend/app/agents/specialized_agents.py:426-444 | one request message per missing key |
| SpecializedAgents.RequestMessagesAt | backend/app/agents/specialized_agents.py:426-444 | the i-th message asks for the i-th request and is stamped at its place in the hub's log |
| SpecializedAgents.RequestMessagesAppend | backend/app/agents/specialized_agents.py:426-444 | the messages for two runs of requests are those of the first followed by those of the second |
| SpecializedAgents.TripMemory | backend/app/agents/specialized_agents.py:448-460 | the stored preference is "trip_planning" with the request's destination and preferences and the first 200 characters of the answer |
| SpecializedAgents.AttractionAgent.constructor | backend/app/agents/specialized_agents.py:218-235 | the attraction agent has tools on, its fixed name, and is registered with the hub when there is one |
| SpecializedAgents.AttractionAgent.Run | backend/app/agents/specialized_agents.py:251-286 | the base run on the augmented input; with a hub and a blackboard, 500 characters of the answer are shared as "attraction_locations" and sent to the hotel agent as one suggestion |
| SpecializedAgents.AttractionAgent.RunOn | backend/app/agents/specialized_agents.py:264-286 | the base run, then the share and the notice when both a hub and a blackboard exist |
| SpecializedAgents.AttractionAgent.Notify | backend/app/agents/specialized_agents.py:267-284 | the blackboard gains "attraction_locations" and the hub's log one suggestion to the hotel agent |
| SpecializedAgents.AttractionAgent.HandleMessage | backend/app/agents/specialized_agents.py:237-249 | a search request runs the agent on its query with three tool iterations and replies with the result; anything else gets the default reply and changes nothing |
| SpecializedAgents.HotelAgent.constructor | backend/app/agents/specialized_agents.py:291-308 | the hotel agent has tools on, its fixed name, and is registered with the hub when there is one |
| SpecializedAgents.HotelAgent.Run | backend/app/agents/specialized_agents.py:320-339 | the base run on the input extended with the attraction locations; with a blackboard, 500 characters of the answer are shared as "hotel_recommendations" |
| SpecializedAgents.HotelAgent.HandleMessage | backend/app/agents/specialized_agents.py:310-318 | a suggestion is only logged, so every message gets the default reply |
| SpecializedAgents.WeatherAgent.constructor | backend/app/agents/specialized_agents.py:344-361 | the weather agent has tools on, its fixed name, and is registered with the hub when there is one |
| SpecializedAgents.WeatherAgent.Run | backend/app/agents/specialized_agents.py:363-385 | the base run on the input extended with the date range; with a blackboard, 500 characters of the answer are shared as "weather_info" |
| SpecializedAgents.WeatherAgent.HandleMessage | backend/app/agents/enhanced_agent.py:362-391 | the weather agent does not override `handle_message`, so every message gets the default reply |
| SpecializedAgents.PlannerAgent.constructor | backend/app/agents/specialized_agents.py:390-406 | the planner has no registry, so tool calling is off, and is registered with the hub when there is one |
| SpecializedAgents.PlannerAgent.HandleMessage | backend/app/agents/specialized_agents.py:408-420 | the planner's replies are those of `PlannerReply` |
| SpecializedAgents.PlannerAgent.Run | backend/app/agents/specialized_agents.py:422-463 | with a hub and a blackboard, one request per missing key goes out first; then the base run; then, for a user and a request context, the "trip_planning" preference is stored and nothing else in memory changes |
| SpecializedAgents.PlannerAgent.RunAndRemember | backend/app/agents/specialized_agents.py:446-461 | the base run, then the stored preference when there is a user and a request context |
| SpecializedAgents.PlannerAgent.RequestMissing | backend/app/agents/specialized_agents.py:424-444 | the requests for the missing keys are decided on one reading of the shared data and logged in order |
| SpecializedAgents.PlannerAgent.Ask | backend/app/agents/specialized_agents.py:431-435 | one request message to the receiver is logged with the blackboard attached |
| SpecializedAgents.PlannerAgent.Remember | backend/app/agents/specialized_agents.py:448-460 | with a request context the preference is stored, otherwise memory is unchanged |
| Planner.SearchTokenParses | backend/app/agents/planner.py:268 | a search token after bracket-free text is the only tool call the agents' parser finds, and its arguments parse back to exactly the keyword and the city |
| Planner.AttractionQueryParses | backend/app/agents/planner.py:258-269 | for `AttractionQuery`: the attraction query carries one `amap_maps_text_search` call whose arguments are the first preference (or "景点") and the destination |
| Planner.HotelQueryParses | backend/app/agents/planner.py:270-274 | for `HotelQuery`: the hotel query carries one call whose arguments are "酒店" and the destination |
| Planner.WeatherQueryHasNoCall | backend/app/agents/planner.py:289 | for `WeatherQuery`: the weather query carries no tool call |
| Planner.ParseDate | backend/app/agents/planner.py:231-232 | `strptime(s, "%Y-%m-%d")` yields only valid calendar dates |
| Planner.FormatThenParse | backend/app/agents/planner.py:231-232 | every valid date's zero-padded text reads back as that date |
| Planner.ParseThenFormat | backend/app/agents/planner.py:231-232 | what reads as a date is that date's canonical text |
| Planner.ParseDateIff | backend/app/agents/planner.py:231-232 | a text reads as a date exactly when it is that valid date written out |
| Planner.LeapDayParses | backend/app/agents/planner.py:231-232 | 2024-02-29 reads |
| Planner.LeapDayRefused | backend/app/agents/planner.py:231-232 | 2023-02-29 is refused with "day is out of range for month" |
| Planner.DayOverflowRefused | backend/app/agents/planner.py:231-232 | 2024-01-32 is refused with the second day digit left unconverted |
| Planner.YearZeroRefused | backend/app/agents/planner.py:231-232 | year 0 is refused as out of range |
| Planner.MonthThirteenRefused | backend/app/agents/planner.py:231-232 | month 13 does not match the format |
| Planner.NextDayOrdinal | backend/app/agents/planner.py:233 | the ordinal behind date subtraction grows by one per calendar day, across month and year ends |
| Planner.PromptEmbeds | backend/app/agents/planner.py:239-256 | for `ConstructPrompt`: the prompt carries the trip length line and the three agents' raw outputs |
| Planner.LengthNeedsDates | backend/app/agents/planner.py:231-233 | the trip length exists exactly when both dates read; a bad start date is the error reported before the end date |
| Planner.LengthOfDates | backend/app/agents/planner.py:233 | for `TripLength`: the trip lasts the day difference plus one |
| Planner.SameDayTrip | backend/app/agents/planner.py:233 | a trip starting and ending on the same day lasts one day |
| Planner.NextDayTrip | backend/app/agents/planner.py:233 | a trip ending the next day lasts two days, also across month and year ends |
| Planner.SwappedDates | backend/app/agents/planner.py:233 | swapping the dates mirrors the length around one day, so a reversed trip lasts at most zero days |
| Planner.FencedBody | backend/app/agents/planner.py:303-304 | for `JsonText`: a reply with one ```json fence and its closing ``` yields exactly the fenced text, stripped |
| Planner.ValidateDumped | backend/app/agents/planner.py:306-307 | for `Validate`: a reply that decodes to a written-out plan validates to that plan |
| Planner.FillAttractions | backend/app/agents/planner.py:311-319 | one attraction out per attraction in |
| Planner.FillDays | backend/app/agents/planner.py:310-319 | one day out per day in |
| Planner.BackfillOnlyEmpty | backend/app/agents/planner.py:310-319 | the backfill changes nothing but empty image lists, each of which stays empty or gets the one non-empty URL the search gave |
| Planner.BackfillIdempotent | backend/app/agents/planner.py:310-319 | backfilling twice is backfilling once |
| Planner.AttractionQueriesEmpty | backend/app/agents/planner.py:311-317 | a day's attractions cause a photo search exactly when one has no image |
| Planner.DayQueriesEmpty | backend/app/agents/planner.py:310-317 | the days cause a photo search exactly when some attraction has no image |
| Planner.SearchesIffImageless | backend/app/agents/planner.py:310-317 | the backfill searches for photos exactly when some attraction has no image |
| Planner.AsWrittenLosesImagelessPlans | backend/app/agents/planner.py:306-323 | as written, a validated plan is lost exactly when some attraction has no image; otherwise it is returned as the intended backfill would |
| Planner.ImagelessPlanExample | backend/app/agents/planner.py:314-317 | one attraction without a picture: the written code returns `None`, the intended backfill fills the picture in |
| Planner.FinishNoneIff | backend/app/agents/planner.py:298-323 | for `Finish`, the end of `plan_trip` with the intended backfill (the corrected half of the backfill finding): `None` exactly for an empty reply or one that fails to decode or validate; otherwise the plan keeps its title, budget, hotels and number of days |
| Planner.FinishAsWrittenNoneIff | backend/app/agents/planner.py:298-323 | for `FinishAsWritten`, the end of `plan_trip` as written: `None` exactly for an empty, undecodable or invalid reply or a valid plan with an attraction without images; a plan it returns is the intended `Finish`'s, made without any photo search |
| Planner.Trace.constructor | backend/app/agents/planner.py:283-294 | the record of agent runs starts empty |
| Planner.Agent.constructor | backend/app/agents/planner.py:193-224 | an agent starts with its name, its reply oracle and nothing asked |
| Planner.Agent.Run | backend/app/agents/planner.py:284-294 | a run answers from what was asked before and the new input, and records the input |
| Planner.PhotoService.constructor | backend/app/agents/planner.py:187 | the photo service starts with no searches made |
| Planner.PhotoService.GetPhotoUrl | backend/app/services/unsplash_service.py:50-54 | a search returns the first photo's URL, if any, and is logged |
| Planner.FillAttractionsIn | backend/app/agents/planner.py:311-319 | the inner loop computes the filled attractions and makes exactly the searches for those without images, in order |
| Planner.DayQueriesStep | backend/app/agents/planner.py:310-317 | one more day adds that day's searches at the end |
| Planner.FillDaysStep | backend/app/agents/planner.py:310-319 | one more day adds that day's filled copy at the end |
| Planner.BackfillImages | backend/app/agents/planner.py:310-319 | the loop over the days computes the backfilled plan and makes exactly the searches the backfill needs |
| Planner.PlannerAgent.constructor | backend/app/agents/planner.py:177-229 | four distinct agents with their fixed names, nothing asked yet, and no photo searched |
| Planner.PlannerAgent.Search | backend/app/agents/planner.py:283-291 | the attraction, hotel and weather agents each run once, in that order, on their queries |
| Planner.PlannerAgent.Complete | backend/app/agents/planner.py:298-323 | the end of `plan_trip` gives the intended `Finish` (extracted, validated, backfilled plan, or `None`) and makes only the backfill's searches; the code as written loses image-less plans instead, as `FinishAsWrittenNoneIff` states |
| Planner.PlannerAgent.PlanTrip | backend/app/agents/planner.py:276-323 | the three searches run in order; a bad date raises `ValueError` before the planner runs; otherwise the planner runs once on the prompt and its reply is finished by the intended `Finish`, where the code as written gives `FinishAsWritten` |
| ToolCalls.NextMatch | backend/app/agents/enhanced_agent.py:277-278 | the scan finds the leftmost match at or after its position, and nothing matches in between |
| ToolCalls.FindAllFrom | backend/app/agents/enhanced_agent.py:277-278 | every reported match is a match of the pattern at its start |
| ToolCalls.FindAllOrdered | backend/app/agents/enhanced_agent.py:277-278 | the matches do not overlap and come left to right |
| ToolCalls.FindAllCovers | backend/app/agents/enhanced_agent.py:277-278 | no match is missed: every position where the pattern matches lies inside a reported match |
| ToolCalls.MatchAtSound | backend/app/agents/enhanced_agent.py:277 | a match is a well-formed token read off the text at its start |
| ToolCalls.MatchAtToken | backend/app/agents/enhanced_agent.py:277 | a well-formed token is matched where it stands, with exactly its own groups |
| ToolCalls.CallsAreMatchedText | backend/app/agents/enhanced_agent.py:279-285 | each call's name and arguments are its match's groups stripped, and its `original` is exactly the matched text |
| ToolCalls.NoBracketNoCalls | backend/app/agents/enhanced_agent.py:277-278 | text without '[' holds no tool call |
| ToolCalls.SingleToken | backend/app/agents/enhanced_agent.py:275-286 | a single well-formed token among text without other '[' parses back to one call: its groups stripped, its `original` the token |
| ToolCalls.ParseToolCalls | backend/app/agents/enhanced_agent.py:275-286 | the loop over `re.findall` gives one call per match, in order |
| ToolCalls.CallsFor | backend/app/agents/enhanced_agent.py:280-285 | for `ToolCallsOf`: one entry per match, in order |
| ToolCalls.ToolParameters | backend/app/agents/enhanced_agent.py:309-329 | the argument parser always gives a well-formed map |
| ToolCalls.PairsDictKeys | backend/app/agents/enhanced_agent.py:315-318 | for `PairsDict`: a key is present exactly when some comma piece with '=' carries it |
| ToolCalls.PairsDictLastWins | backend/app/agents/enhanced_agent.py:315-318 | under a repeated key the last piece's value wins |
| ToolCalls.OnePair | backend/app/agents/enhanced_agent.py:319-321 | with '=' but no ',' the whole argument string is one stripped key and value, split at the first '=' |
| ToolCalls.DefaultKeys | backend/app/agents/enhanced_agent.py:322-328 | without '=' the whole string goes under "query" for search, under "query" with action "search" for memory, and under "input" otherwise |
| ToolCalls.TwoPairs | backend/app/agents/enhanced_agent.py:313-318 | two clean `key=value` pairs come back as they are, in order |
| ToolCalls.ParseToolParameters | backend/app/agents/enhanced_agent.py:309-329 | the loop over the comma pieces computes the parser's map |
| ToolCalls.ExecuteToolCall | backend/app/agents/enhanced_agent.py:288-307 | never raises: no registry, an unknown tool and a raising tool each give their error text; the calculator gets the raw arguments and any other tool the parsed map |
| ToolCalls.OutcomeTextsDiffer | backend/app/agents/enhanced_agent.py:291-307 | a result text can never be mistaken for one of the error texts |
| Sorting.SortDescPerm | backend/app/services/memory_service.py:300 | `sort(..., reverse=True)` returns the same elements |
| Sorting.SortDescSorted | backend/app/services/memory_service.py:300 | the sort puts larger keys first |
| Sorting.SortDescStable | backend/app/services/memory_service.py:402 | elements with equal keys keep their original order |
| Sorting.SortedPrefixTop | backend/app/services/memory_service.py:300-301 | a prefix of a descending list keeps its best elements: nothing left out has a larger key than anything kept, which is what `sort(reverse=True)` then `[:limit]` relies on |
| Sorting.InsertPerm | backend/app/services/memory_service.py:300 | inserting adds exactly the one element |
| Sorting.InsertSorted | backend/app/services/memory_service.py:300 | inserting into a descending list keeps it descending |
| Sorting.IntLessTotal | backend/app/services/memory_service.py:300 | `<` on match scores is a strict total order |
| Sorting.StrLessStrictTotal | backend/app/services/memory_service.py:402 | Python's string `<` on timestamps is a strict total order |

## Left out

- The completion model is a parameter. This covers the OpenAI-compatible client, `think`, `invoke`, `stream_invoke` and the `SimpleAgent` wrapper the orchestrator drives. The model sees only the text each call returns for the turns it was given.
- The tool registry and MCP tools are foreign code, so each tool is a function from its parameter map to its output or an exception. `add_tool`, `has_tools` and `list_tools` only forward to that registry and are not modelled.
- FAISS search, the sentence embeddings, vector normalisation and similarity arithmetic are floating point and foreign. An index is its vector count plus a search oracle, and a score is whatever the oracle returns.
- File persistence is not modelled: loading and saving the JSON memory file, loading and saving the vector indexes and their metadata, and the module-level service singletons. Every store starts from the state it is given.
- Threads and locks are not modelled: the breaker, the buckets and the hub are used one call at a time. The lock in the circuit breaker is the one exception, and it appears only in the finding below.
- The wall clock, `time.time()` and `uuid4()` are parameters of the operations that read them. Timestamps are opaque strings compared as text.
- A message id is `sender_receiver_<epoch seconds>` built from the clock reading the message carries. The model does not claim ids are unique; two messages in the same second share one.
- The natural-language prompt constants are passed in as `systemPrompt`, already built. This includes `_get_enhanced_system_prompt` and `_get_memory_context`, which render the global memory service through Python `repr`.
- Geofencing and distance limits exist only as instructions in the agents' prompts, so no behaviour is claimed for them.
- JWT encoding and decoding, the guest-cookie `AuthMiddleware`, request ids, logging and the application wiring are left out. The routes take the decoded token claims as a parameter, and `logout` only logs.
- Pydantic and FastAPI request validation is modelled by the per-record validation functions. Validation accepts an integer where a float is declared and otherwise demands the declared type. Pydantic's wider coercions (numeric strings, booleans as numbers) are not modelled.
- `json.loads` is a partial function passed in, and the planner's `strptime` is modelled for zero-padded `YYYY-MM-DD` text only.
- `str()` of a stored value, used by the memory search, is the parameter `render`. `str()` of an integer is written out.
- `AgentMessage.to_dict` is a plain field-by-field rendering of the message record and is not modelled.
- The Unsplash HTTP client is a photo-search oracle that takes a query. The frontend, the integration scripts and `run.py` are outside the backend core.
- Sorting on a non-string `timestamp` key would raise a TypeError in Python. Here a missing or non-string timestamp sorts as the empty text.
- Values.GetStr, Values.GetStrList, Values.Strs: a stored value of the wrong type is read as absent, and a non-string list element is dropped. Python sometimes raises on such values and sometimes uses them, so the model agrees with the source only where every such value has the declared type. The differences are:
  - `retrieve_similar_trips` with a string `preferences` in `trip_data`: `set(...)` is its set of characters, and with a dict it is the key set. The model reads both as no preferences, so the match score is 0. A number or `None` there makes Python raise.
  - `retrieve_similar_trips` with a non-string `destination` in `trip_data`: Python raises on `.lower()`. The model reads it as "".
  - The attraction agent with a string `preferences` in the request: `", ".join(preferences[:2])` joins its first two characters. The model reads it as no preferences and leaves the input unchanged. A dict or number there makes Python raise.
  - The attraction agent with a preference list holding non-strings: Python raises in `join` when one of the first two is not a string. The model drops the non-strings first and joins the first two strings.
  - `store_memory` with a non-string `preference_type`, `trip_id` or `context_key`: Python stores it as given. The model uses the default instead.
- SpecializedAgents.RequestObj: a truthy `request` shared value that is not a dict counts as absent, where Python raises on `.get`.
- SpecializedAgents.DateRange: a truthy non-string `start_date` or `end_date` counts as absent, where the f-string renders it with `str()` into the weather input.
- SpecializedAgents.HotelInput: a truthy non-string `attraction_locations` counts as absent. Python slices a list to its first 200 elements and renders them into the hotel input; it raises on a number or a dict.
- `Strings.Lower` lower-cases ASCII letters only. Python's `str.lower()` also folds other scripts, so case-insensitive matching is modelled for ASCII text.
- Objects changed in place are modelled by rebuilding values inside the owning class. Python would also alias the metadata dict shared by duplicate ids in the vector store, and that aliasing is not modelled.
- ContextManagement.CreateSnapshot, ContextManagement.ContextManager.CreateSnapshotOf: these take the intended full copy of the context, the corrected half of the snapshot finding below. `self.context.copy()` at context_manager.py:182 is shallow, so a snapshot, then `update_context`, then `restore_from_snapshot` keeps the update in the history and agent contexts. `ContextManagement.SeenAtRestore` and `ContextManagement.AliasedRestoreKeepsUpdate` model the code as written.
- The snapshot finding below models the shallow copy for one snapshot followed by an update. Snapshots interleaved with further restores are not modelled, because they alias nested data.
- Each agent's completion model is a separate function. In the source the orchestrator hands one LLM client object to all four agents; any state that client keeps across agents is not modelled.
- Planner.PlannerAgent.PlanTrip, Planner.PlannerAgent.Complete, Planner.Finish, Planner.FinishNoneIff: these run the intended image backfill, the corrected half of the backfill finding below. The code as written returns `None`, and makes no photo search, for every valid plan with an attraction without images. `Planner.FinishAsWritten` and `Planner.FinishAsWrittenNoneIff` state that behaviour. The two agree, and make the same (empty) searches, on every plan whose attractions all have images.
- AgentCommunication.CommunicationHub.SendMessage: a handler reached through `dispatch` is assumed not to send through the hub or write the blackboard, so a send adds exactly one message to the log. Every message the backend itself sends meets this. The planner's requests ask for `provide_attractions` or `provide_hotels`, which get the default reply. The hotel agent only logs the attraction agent's suggestion. Negotiations sent to the planner are answered by agreeing. Only a `search_attractions` request would run the attraction agent, which shares its result and sends a suggestion of its own, and no backend code sends one.
- AgentCommunication.SuggestionsOf: feedback that makes `_integrate_feedback` raise is read as feedback without suggestions, and the negotiation goes on. That covers a `None` or numeric feedback, a text or list feedback containing "suggestions", and a dict whose "suggestions" value is not a dict. In the source the TypeError or AttributeError propagates out of `negotiate`. The model agrees with the source on every feedback that is a dict whose "suggestions" entry, if present, is a dict.
- Python floats are exact reals throughout: token levels, refill rates, breaker timeouts, clock readings, the negotiation's mean `(a + b) / 2` and parsed numbers. Float rounding and overflow are not modelled.
- EnhancedAgents.EnhancedAgent.Run: one clock reading `now` stands for the several `datetime.now()` reads of one run, so the timestamps a run writes are equal, where the source's may differ.
- VectorMemory.VectorMemoryService.Stats: reports the memory directory as the text it was given, not as `str(Path(...))` normalises it.

## Findings

| source | as written | input that shows it | evidently intended | confidence | as-written member | corrected member |
|---|---|---|---|---|---|---|
| backend/app/middleware/circuit_breaker.py:68-107 | `call` holds the non-reentrant `threading.Lock` while the wrapped function runs and while `_on_success` / `_on_failure` run, and both handlers take `with self.lock:` again | a new breaker and a function that returns 1: the first `_on_success` waits on the lock its own thread holds, so the call never returns | the call returns 1 and the breaker stays closed with its failure count reset | medium (not executed) | CircuitBreakers.AsWrittenBlocks | CircuitBreakers.CallCorrected |
| backend/app/agents/planner.py:314-317 | the backfill calls `get_photo_url(name, ensure_attraction=True)`, but `get_photo_url` takes only a query (backend/app/services/unsplash_service.py:50). The TypeError is caught by the surrounding `except`, which only logs it, so the method returns `None` | a validated plan for 北京 with one day whose attraction 故宫 has no image URL | the attraction gets the photo found for its search text and the plan is returned | high (not executed) | Planner.AsWrittenLosesImagelessPlans | Planner.BackfillImages |
| backend/app/services/context_manager.py:182 | `create_snapshot` stores `self.context.copy()`, a shallow copy, so the snapshot's history list and nested dicts are the live ones | snapshot at version v, then `update_context`, then `restore_from_snapshot`: the version is back to v but the history still holds the update | restoring a snapshot brings back the whole context as it was when the snapshot was taken | medium (not executed) | ContextManagement.AliasedRestoreKeepsUpdate | ContextManagement.RestoreUndoes |
