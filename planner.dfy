/**
 * The trip-planning orchestrator: the tool-call queries it hands to the
 * search agents, the planner prompt with its trip length in days, the
 * extraction and validation of the planner's JSON reply, and the image
 * backfill of attractions without pictures. The four agents, `json.loads`
 * and the photo search are oracles.
 */
module Planner {
  import opened Wrappers
  import opened Strings
  import opened Dicts
  import opened Values
  import opened CommonModels
  import opened TripModels
  import opened ToolCalls
  import opened TripApi

  // The queries handed to the search agents.

  const SearchTool: string := "amap_maps_text_search"

  /** The first preference is the search keyword; "景点" when there is none. */
  function AttractionKeyword(req: TripPlanRequest): string {
    if req.preferences != [] then req.preferences[0] else "景点"
  }

  function SearchArgs(keywords: string, city: string): string {
    "keywords=" + keywords + ",city=" + city
  }

  /** `_build_attraction_query` */
  function AttractionQuery(req: TripPlanRequest): string {
    var k := AttractionKeyword(req);
    "请使用amap_maps_text_search工具搜索" + req.destination + "的" + k + "相关景点。\n"
    + Token(SearchTool, SearchArgs(k, req.destination))
  }

  /** `_build_hotel_query` */
  function HotelQuery(req: TripPlanRequest): string {
    "请使用amap_maps_text_search工具搜索" + req.destination + "的酒店。请确保返回的酒店信息详细且准确。\n"
    + Token(SearchTool, SearchArgs("酒店", req.destination))
  }

  function WeatherQuery(req: TripPlanRequest): string {
    "请查询" + req.destination + "的天气信息"
  }

  /** A value that passes through the token grammar and the argument parser unchanged. */
  predicate Plain(s: string) {
    ',' !in s && '[' !in s && ']' !in s && NoSurroundingSpace(s)
  }

  lemma SearchArgsShape(k: string, d: string)
    requires Plain(k) && Plain(d)
    ensures Groups(SearchTool, SearchArgs(k, d)) && Strip(SearchArgs(k, d)) == SearchArgs(k, d)
    ensures Strip(SearchTool) == SearchTool
  {
    var args := SearchArgs(k, d);
    assert args[0] == 'k';
    assert args[|args| - 1] == if d == [] then '=' else d[|d| - 1];
    StripIdentity(args);
    StripIdentity(SearchTool);
  }

  lemma SearchArgsParameters(k: string, d: string)
    requires Plain(k) && Plain(d)
    ensures ToolParameters(SearchTool, SearchArgs(k, d)) == Dict(["keywords", "city"], map["keywords" := k, "city" := d])
  {
    KeyLiterals();
    TwoPairs("keywords", k, "city", d, SearchTool);
    assert "keywords" + "=" + k + "," + "city" + "=" + d == SearchArgs(k, d) by {
      assert "keywords" + "=" == "keywords=";
      assert "," + "city" + "=" == ",city=";
    }
  }

  /** The two key names of a search call are bare words. */
  lemma KeyLiterals()
    ensures ',' !in "keywords" && '=' !in "keywords" && NoSurroundingSpace("keywords")
    ensures ',' !in "city" && '=' !in "city" && NoSurroundingSpace("city")
    ensures "keywords" != "city"
  {
    assert "keywords"[0] != "city"[0];
  }

  /**
   * A search token after bracket-free text is the only call the agents'
   * parser finds, and its arguments come back as exactly the keyword and the
   * city.
   */
  lemma SearchTokenParses(prefix: string, k: string, d: string)
    requires Plain(k) && Plain(d) && '[' !in prefix
    ensures ToolCallsOf(prefix + Token(SearchTool, SearchArgs(k, d)))
         == [ToolCall(SearchTool, SearchArgs(k, d), Token(SearchTool, SearchArgs(k, d)))]
    ensures ToolParameters(SearchTool, SearchArgs(k, d)) == Dict(["keywords", "city"], map["keywords" := k, "city" := d])
  {
    var args := SearchArgs(k, d);
    SearchArgsShape(k, d);
    SingleToken(prefix, SearchTool, args, "");
    assert prefix + Token(SearchTool, args) + "" == prefix + Token(SearchTool, args);
    SearchArgsParameters(k, d);
  }

  /**
   * The attraction query carries one `amap_maps_text_search` call whose
   * arguments parse to {keywords: the first preference or "景点", city: the
   * destination}.
   */
  lemma AttractionQueryParses(req: TripPlanRequest)
    requires Plain(req.destination) && (req.preferences == [] || Plain(req.preferences[0]))
    ensures var args := SearchArgs(AttractionKeyword(req), req.destination);
      && ToolCallsOf(AttractionQuery(req)) == [ToolCall(SearchTool, args, Token(SearchTool, args))]
      && ToolParameters(SearchTool, args)
         == Dict(["keywords", "city"], map["keywords" := AttractionKeyword(req), "city" := req.destination])
  {
    var k := AttractionKeyword(req);
    var prefix := "请使用amap_maps_text_search工具搜索" + req.destination + "的" + k + "相关景点。\n";
    assert '[' !in "请使用amap_maps_text_search工具搜索";
    assert '[' !in "相关景点。\n";
    SearchTokenParses(prefix, k, req.destination);
  }

  /** The hotel query carries one call whose arguments parse to {keywords: "酒店", city: the destination}. */
  lemma HotelQueryParses(req: TripPlanRequest)
    requires Plain(req.destination)
    ensures var args := SearchArgs("酒店", req.destination);
      && ToolCallsOf(HotelQuery(req)) == [ToolCall(SearchTool, args, Token(SearchTool, args))]
      && ToolParameters(SearchTool, args) == Dict(["keywords", "city"], map["keywords" := "酒店", "city" := req.destination])
  {
    var prefix := "请使用amap_maps_text_search工具搜索" + req.destination + "的酒店。请确保返回的酒店信息详细且准确。\n";
    assert '[' !in "请使用amap_maps_text_search工具搜索";
    assert '[' !in "的酒店。请确保返回的酒店信息详细且准确。\n";
    assert Plain("酒店");
    SearchTokenParses(prefix, "酒店", req.destination);
  }

  /** The weather query carries no tool call at all. */
  lemma WeatherQueryHasNoCall(req: TripPlanRequest)
    requires '[' !in req.destination
    ensures ToolCallsOf(WeatherQuery(req)) == []
  {
    var q := WeatherQuery(req);
    assert '[' !in "请查询" && '[' !in "的天气信息";
    assert q[0..] == q;
    NoBracketNoCalls(q, 0);
  }

  // Dates as `datetime.strptime(s, "%Y-%m-%d")` reads them.

  datatype Date = Date(year: int, month: int, day: int)

  predicate IsLeap(y: int) {
    y % 4 == 0 && (y % 100 != 0 || y % 400 == 0)
  }

  function DaysInMonth(y: int, m: int): int
    requires 1 <= m <= 12
  {
    if m == 2 then (if IsLeap(y) then 29 else 28)
    else if m == 4 || m == 6 || m == 9 || m == 11 then 30
    else 31
  }

  function DaysBeforeMonth(y: int, m: int): int
    requires 1 <= m <= 12
  {
    [0, 31, 59, 90, 120, 151, 181, 212, 243, 273, 304, 334][m - 1] + (if m > 2 && IsLeap(y) then 1 else 0)
  }

  function DaysBeforeYear(y: int): int
    requires y >= 1
  {
    var p := y - 1;
    p * 365 + p / 4 - p / 100 + p / 400
  }

  /** The dates `datetime.date` accepts. */
  predicate ValidDate(x: Date) {
    1 <= x.year <= 9999 && 1 <= x.month <= 12 && 1 <= x.day <= DaysInMonth(x.year, x.month)
  }

  /** `date.toordinal()`: 0001-01-01 is day 1. */
  function Ordinal(x: Date): int
    requires ValidDate(x)
  {
    DaysBeforeYear(x.year) + DaysBeforeMonth(x.year, x.month) + x.day
  }

  /** The calendar's next day. */
  function NextDay(x: Date): Date
    requires ValidDate(x)
  {
    if x.day < DaysInMonth(x.year, x.month) then Date(x.year, x.month, x.day + 1)
    else if x.month < 12 then Date(x.year, x.month + 1, 1)
    else Date(x.year + 1, 1, 1)
  }

  lemma YearLength(y: int)
    requires y >= 1
    ensures DaysBeforeYear(y + 1) == DaysBeforeYear(y) + (if IsLeap(y) then 366 else 365)
  {
    var p := y - 1;
    assert DaysBeforeYear(y + 1) == y * 365 + y / 4 - y / 100 + y / 400;
    assert DaysBeforeYear(y) == p * 365 + p / 4 - p / 100 + p / 400;
    DivStep(y, 4);
    DivStep(y, 100);
    DivStep(y, 400);
    if y % 400 == 0 {
      DivUnique(y, 100, 4 * (y / 400), 0);
    }
    if y % 100 == 0 {
      DivUnique(y, 4, 25 * (y / 100), 0);
    }
  }

  /** Counting multiples of `n` up to `y` gains one exactly when `n` divides `y`. */
  lemma DivStep(y: int, n: int)
    requires y >= 1 && n > 0
    ensures y / n == (y - 1) / n + (if y % n == 0 then 1 else 0)
  {
    var q, r := (y - 1) / n, (y - 1) % n;
    assert y - 1 == n * q + r;
    if r == n - 1 {
      assert y == n * (q + 1);
      DivUnique(y, n, q + 1, 0);
    } else {
      DivUnique(y, n, q, r + 1);
    }
  }

  lemma DivUnique(y: int, n: int, q: int, r: int)
    requires n > 0 && 0 <= r < n && y == n * q + r
    ensures y / n == q && y % n == r
  {
    var k := y / n - q;
    assert n * k == r - y % n;
    MulAwayFromZero(n, k);
  }

  lemma MulAwayFromZero(n: int, k: int)
    requires n > 0
    ensures k >= 1 ==> n * k >= n
    ensures k <= -1 ==> n * k <= -n
  {
    if k >= 1 {
      assert n * k == n + n * (k - 1);
    } else if k <= -1 {
      assert n * k == -n + n * (k + 1);
    }
  }

  /** Ordinals count days: the next day's ordinal is one more, across month and year ends. */
  lemma NextDayOrdinal(x: Date)
    requires ValidDate(x) && x != Date(9999, 12, 31)
    ensures ValidDate(NextDay(x)) && Ordinal(NextDay(x)) == Ordinal(x) + 1
  {
    if x.day == DaysInMonth(x.year, x.month) && x.month == 12 {
      YearLength(x.year);
    }
  }

  function Digits2(n: int): string
    requires 0 <= n < 100
  {
    [DigitChar(n / 10), DigitChar(n % 10)]
  }

  /** `date.strftime("%Y-%m-%d")` */
  function FormatDate(x: Date): string
    requires ValidDate(x)
  {
    Digits2(x.year / 100) + Digits2(x.year % 100) + "-" + Digits2(x.month) + "-" + Digits2(x.day)
  }

  predicate IsDigit(c: char) {
    '0' <= c <= '9'
  }

  function Digit(c: char): int {
    c as int - '0' as int
  }

  /** The two-digit number at `s[i..i + 2]`. */
  function Num2(s: string, i: nat): int
    requires i + 2 <= |s|
  {
    10 * Digit(s[i]) + Digit(s[i + 1])
  }

  /** Four digits, '-', two digits, '-', two digits. */
  predicate Shaped(s: string) {
    |s| == 10 && s[4] == '-' && s[7] == '-'
    && (forall i :: 0 <= i < 10 && i != 4 && i != 7 ==> IsDigit(s[i]))
  }

  datatype DateResult = Parsed(date: Date) | DateError(message: string)

  function Mismatch(s: string): DateResult {
    DateError("time data '" + s + "' does not match format '%Y-%m-%d'")
  }

  /**
   * `datetime.strptime(s, "%Y-%m-%d")` on zero-padded text: a month outside
   * 01-12 or a day "00" does not match the format; a day from 32 up matches
   * its first digit and leaves the second unconverted; year 0 and a day past
   * the month's end are refused by the date constructor.
   */
  function ParseDate(s: string): (r: DateResult)
    ensures r.Parsed? ==> ValidDate(r.date)
  {
    if !Shaped(s) then Mismatch(s)
    else
      var y := 100 * Num2(s, 0) + Num2(s, 2);
      var m := Num2(s, 5);
      var d := Num2(s, 8);
      if m < 1 || m > 12 || d < 1 then Mismatch(s)
      else if d > 31 then DateError("unconverted data remains: " + s[9..])
      else if y == 0 then DateError("year 0 is out of range")
      else if d > DaysInMonth(y, m) then DateError("day is out of range for month")
      else Parsed(Date(y, m, d))
  }

  lemma Digits2Num(n: int)
    requires 0 <= n < 100
    ensures Num2(Digits2(n), 0) == n
  {
  }

  /** Every valid date's text reads back as that date. */
  lemma FormatThenParse(x: Date)
    requires ValidDate(x)
    ensures ParseDate(FormatDate(x)) == Parsed(x)
  {
    var s := FormatDate(x);
    Digits2Num(x.year / 100);
    Digits2Num(x.year % 100);
    Digits2Num(x.month);
    Digits2Num(x.day);
    assert s[0..2] == Digits2(x.year / 100) && s[2..4] == Digits2(x.year % 100);
    assert s[5..7] == Digits2(x.month) && s[8..10] == Digits2(x.day);
    assert Num2(s, 0) == x.year / 100 && Num2(s, 2) == x.year % 100;
    assert Num2(s, 5) == x.month && Num2(s, 8) == x.day;
    assert Shaped(s);
  }

  lemma DigitsOfNum2(s: string, i: nat)
    requires i + 2 <= |s| && IsDigit(s[i]) && IsDigit(s[i + 1])
    ensures 0 <= Num2(s, i) < 100 && Digits2(Num2(s, i)) == s[i..i + 2]
  {
  }

  /** Only the canonical text of a date parses: what parses is that date's text. */
  lemma ParseThenFormat(s: string)
    requires ParseDate(s).Parsed?
    ensures FormatDate(ParseDate(s).date) == s
  {
    var x := ParseDate(s).date;
    DigitsOfNum2(s, 0);
    DigitsOfNum2(s, 2);
    DigitsOfNum2(s, 5);
    DigitsOfNum2(s, 8);
    assert x.year / 100 == Num2(s, 0) && x.year % 100 == Num2(s, 2);
    assert s == s[0..2] + s[2..4] + "-" + s[5..7] + "-" + s[8..10];
  }

  /** A text parses to a date exactly when it is that valid date written out. */
  lemma ParseDateIff(s: string, x: Date)
    ensures ParseDate(s) == Parsed(x) <==> ValidDate(x) && s == FormatDate(x)
  {
    if ParseDate(s) == Parsed(x) {
      ParseThenFormat(s);
    }
    if ValidDate(x) && s == FormatDate(x) {
      FormatThenParse(x);
    }
  }

  /** A leap day in a leap year reads. */
  lemma LeapDayParses()
    ensures ParseDate("2024-02-29") == Parsed(Date(2024, 2, 29))
  {
    assert Shaped("2024-02-29");
  }

  /** A leap day outside a leap year is refused by the date constructor. */
  lemma LeapDayRefused()
    ensures ParseDate("2023-02-29") == DateError("day is out of range for month")
  {
    assert Shaped("2023-02-29");
  }

  /** A two-digit day that does not exist leaves its second digit unconverted. */
  lemma DayOverflowRefused()
    ensures ParseDate("2024-01-32") == DateError("unconverted data remains: 2")
  {
    assert Shaped("2024-01-32");
    assert "2024-01-32"[9..] == "2";
  }

  /** Year zero matches the format but not the calendar. */
  lemma YearZeroRefused()
    ensures ParseDate("0000-01-01") == DateError("year 0 is out of range")
  {
    assert Shaped("0000-01-01");
  }

  /** A thirteenth month does not match the format at all. */
  lemma MonthThirteenRefused()
    ensures ParseDate("2024-13-01") == Mismatch("2024-13-01")
  {
    assert Shaped("2024-13-01");
  }

  // The planner prompt.

  /** `', '.join(prefs) if prefs else '无'` */
  function PrefText(prefs: seq<string>): string {
    if prefs != [] then Join(prefs, ", ") else "无"
  }

  function DaysLine(n: int): string {
    "旅行天数: " + IntToString(n) + " 天"
  }

  function PromptIntro(req: TripPlanRequest): string {
    "\n        请为我创建一个前往 " + req.destination + " 的旅行计划。\n\n        **基本信息:**\n        - "
  }

  function PromptDetails(req: TripPlanRequest): string {
    " (从 " + req.startDate + " 到 " + req.endDate + ")\n        - 预算水平: "
    + req.budget + "\n        - 个人偏好: " + PrefText(req.preferences) + "\n        - 酒店偏好: "
    + PrefText(req.hotelPreferences)
    + "\n\n        **可用资源（原始数据，供你参考生成结构化 JSON）:**\n        - 推荐景点原始信息:\n"
  }

  const HotelsHeader: string := "\n        - 推荐酒店原始信息:\n"
  const WeatherHeader: string := "\n        - 天气预报原始信息:\n"
  const PromptTail: string :=
    "\n\n        请使用系统提示词中给出的 JSON 结构（包含 trip_title、total_budget、hotels、days、recommended_hotel、attractions、dinings、budget 等字段），\n        按照要求返回一个**完整且合法的 JSON 对象**。不要输出 Markdown 代码块标记（如 ```json），也不要添加任何解释文字。\n        "

  /** The f-string of `_construct_prompt`, with the trip length already computed. */
  function PromptText(req: TripPlanRequest, duration: int, attractions: string, hotels: string, weather: string): string {
    PromptIntro(req) + DaysLine(duration) + PromptDetails(req)
    + attractions + HotelsHeader + hotels + WeatherHeader + weather + PromptTail
  }

  lemma ContainsSelf(s: string)
    ensures Contains(s, s)
  {
    assert s[0..|s|] == s;
    ContainsAt(s, s, 0);
  }

  /** Text that occurs in `s` occurs in anything that extends `s` on either side. */
  lemma ContainsGrow(s: string, t: string, sub: string)
    requires Contains(s, sub)
    ensures Contains(s + t, sub) && Contains(t + s, sub)
  {
    var k := Find(s, sub).value;
    assert (s + t)[k..k + |sub|] == s[k..k + |sub|];
    ContainsAt(s + t, sub, k);
    assert (t + s)[|t| + k..|t| + k + |sub|] == s[k..k + |sub|];
    ContainsAt(t + s, sub, |t| + k);
  }

  /** The prompt carries the trip length and the three agents' raw outputs. */
  lemma PromptEmbeds(req: TripPlanRequest, n: int, a: string, h: string, w: string)
    ensures Contains(PromptText(req, n, a, h, w), DaysLine(n))
    ensures Contains(PromptText(req, n, a, h, w), a)
    ensures Contains(PromptText(req, n, a, h, w), h)
    ensures Contains(PromptText(req, n, a, h, w), w)
  {
    var s0 := PromptIntro(req) + DaysLine(n) + PromptDetails(req);
    var s1 := s0 + a;
    var s2 := s1 + HotelsHeader;
    var s3 := s2 + h;
    var s4 := s3 + WeatherHeader;
    var s5 := s4 + w;
    var p := s5 + PromptTail;
    assert p == PromptText(req, n, a, h, w);
    ContainsInConcat(PromptIntro(req), DaysLine(n), PromptDetails(req));
    ContainsSelf(a);
    ContainsSelf(h);
    ContainsSelf(w);
    ContainsGrow(a, s0, a);
    ContainsGrow(h, s2, h);
    ContainsGrow(w, s4, w);
    ContainsGrow(s0, a, DaysLine(n));
    ContainsGrow(s1, HotelsHeader, DaysLine(n));
    ContainsGrow(s1, HotelsHeader, a);
    ContainsGrow(s2, h, DaysLine(n));
    ContainsGrow(s2, h, a);
    ContainsGrow(s3, WeatherHeader, DaysLine(n));
    ContainsGrow(s3, WeatherHeader, a);
    ContainsGrow(s3, WeatherHeader, h);
    ContainsGrow(s4, w, DaysLine(n));
    ContainsGrow(s4, w, a);
    ContainsGrow(s4, w, h);
    ContainsGrow(s5, PromptTail, DaysLine(n));
    ContainsGrow(s5, PromptTail, a);
    ContainsGrow(s5, PromptTail, h);
    ContainsGrow(s5, PromptTail, w);
  }

  /** The trip length, or the `ValueError` of the first date that cannot be read. */
  datatype TripDays = Days(n: int) | BadDate(message: string)

  /** The start date is read first, then the end date; the trip lasts (end - start).days + 1 days. */
  function TripLength(req: TripPlanRequest): TripDays {
    match ParseDate(req.startDate)
    case DateError(m) => BadDate(m)
    case Parsed(start) =>
      match ParseDate(req.endDate)
      case DateError(m) => BadDate(m)
      case Parsed(end) => Days(Ordinal(end) - Ordinal(start) + 1)
  }

  /** What `_construct_prompt` does: the prompt, or the `ValueError` of a date it cannot read. */
  datatype Built = Built(prompt: string) | ValueError(message: string)

  function ConstructPrompt(req: TripPlanRequest, attractions: string, hotels: string, weather: string): Built {
    match TripLength(req)
    case BadDate(m) => ValueError(m)
    case Days(n) => Built(PromptText(req, n, attractions, hotels, weather))
  }

  /** A length is computed exactly when both dates read, and a bad start date is the one reported. */
  lemma LengthNeedsDates(req: TripPlanRequest)
    ensures TripLength(req).Days? <==> ParseDate(req.startDate).Parsed? && ParseDate(req.endDate).Parsed?
    ensures ParseDate(req.startDate).DateError? ==> TripLength(req) == BadDate(ParseDate(req.startDate).message)
    ensures ParseDate(req.startDate).Parsed? && ParseDate(req.endDate).DateError? ==>
      TripLength(req) == BadDate(ParseDate(req.endDate).message)
  {
  }

  /** The trip length counts both ends: the ordinal difference plus one. */
  lemma LengthOfDates(req: TripPlanRequest, start: Date, end: Date)
    requires ValidDate(start) && ValidDate(end)
    requires req.startDate == FormatDate(start) && req.endDate == FormatDate(end)
    ensures TripLength(req) == Days(Ordinal(end) - Ordinal(start) + 1)
  {
    FormatThenParse(start);
    FormatThenParse(end);
  }

  /** A trip that starts and ends on the same day lasts one day. */
  lemma SameDayTrip(req: TripPlanRequest, x: Date)
    requires ValidDate(x) && req.startDate == req.endDate == FormatDate(x)
    ensures TripLength(req) == Days(1)
  {
    LengthOfDates(req, x, x);
  }

  /** A trip that ends the next day lasts two days, also across a month or a year end. */
  lemma NextDayTrip(req: TripPlanRequest, x: Date)
    requires ValidDate(x) && x != Date(9999, 12, 31)
    requires req.startDate == FormatDate(x) && req.endDate == FormatDate(NextDay(x))
    ensures TripLength(req) == Days(2)
  {
    NextDayOrdinal(x);
    LengthOfDates(req, x, NextDay(x));
  }

  /** Swapping the dates mirrors the length around one day: a reversed trip has a length of at most zero. */
  lemma SwappedDates(req: TripPlanRequest)
    requires TripLength(req).Days?
    ensures TripLength(req.(startDate := req.endDate, endDate := req.startDate)).Days?
    ensures TripLength(req).n + TripLength(req.(startDate := req.endDate, endDate := req.startDate)).n == 2
  {
  }

  // The planner's reply.

  const Fence: string := "```json"
  const Ticks: string := "```"

  /** `s.split(sep)[0]`: the text before the first occurrence of `sep`. */
  function FirstPiece(s: string, sep: string): string {
    match Find(s, sep)
    case None => s
    case Some(i) => s[..i]
  }

  /** `s.split(sep)[1]` where `sep` occurs: the text between its first and second occurrence. */
  function SecondPiece(s: string, sep: string): string
    requires Contains(s, sep)
  {
    FirstPiece(s[Find(s, sep).value + |sep|..], sep)
  }

  /** The text handed to `json.loads`: inside a ```json fence when there is one, else the whole reply. */
  function JsonText(s: string): string {
    if Contains(s, Fence) then Strip(FirstPiece(SecondPiece(s, Fence), Ticks)) else s
  }

  lemma FirstOccurrence(s: string, sub: string, k: nat)
    requires OccursAt(s, sub, k)
    requires forall j :: 0 <= j < k ==> !OccursAt(s, sub, j)
    ensures Find(s, sub) == Some(k)
  {
  }

  lemma OccursChar(s: string, sub: string, j: nat, k: nat)
    requires OccursAt(s, sub, j) && k < |sub|
    ensures s[j + k] == sub[k]
  {
    assert s[j..j + |sub|][k] == s[j + k];
  }

  /** A pattern that starts with a backtick does not start inside backtick-free text. */
  lemma NoTickNoOccurrence(a: string, b: string, sub: string, j: nat)
    requires '`' !in a && sub != [] && sub[0] == '`' && j < |a|
    ensures !OccursAt(a + b, sub, j)
  {
    FirstCharOfOccurrence(a + b, sub, j);
    assert (a + b)[j] == a[j];
  }

  lemma OccursCharAt(s: string, sub: string, j: nat, k: int)
    ensures OccursAt(s, sub, j) && 0 <= k < |sub| ==> s[j + k] == sub[k]
  {
    if OccursAt(s, sub, j) && 0 <= k < |sub| {
      OccursChar(s, sub, j, k);
    }
  }

  lemma FirstCharOfOccurrence(s: string, sub: string, j: nat)
    requires sub != []
    ensures OccursAt(s, sub, j) ==> s[j] == sub[0]
  {
    if OccursAt(s, sub, j) {
      OccursChar(s, sub, j, 0);
    }
  }

  /** A backtick pattern placed right after backtick-free text is found there first. */
  lemma FoundAfterTickFree(a: string, b: string, sub: string)
    requires '`' !in a && sub != [] && sub[0] == '`' && OccursAt(a + b, sub, |a|)
    ensures Find(a + b, sub) == Some(|a|)
  {
    forall j | 0 <= j < |a| ensures !OccursAt(a + b, sub, j) {
      NoTickNoOccurrence(a, b, sub, j);
    }
    FirstOccurrence(a + b, sub, |a|);
  }

  /** A backtick pattern is not found inside backtick-free text. */
  lemma NotFoundTickFree(a: string, sub: string)
    requires '`' !in a && sub != [] && sub[0] == '`'
    ensures Find(a, sub) == None
  {
    forall j | 0 <= j < |a| ensures !OccursAt(a, sub, j) {
      NoTickNoOccurrence(a, [], sub, j);
      assert a + [] == a;
    }
  }

  /** A backtick pattern after backtick-free text is found, if at all, no earlier than its end. */
  lemma FoundNotBefore(a: string, b: string, sub: string)
    requires '`' !in a && sub != [] && sub[0] == '`'
    ensures Find(a + b, sub).Some? ==> Find(a + b, sub).value >= |a|
  {
    if Find(a + b, sub).Some? && Find(a + b, sub).value < |a| {
      NoTickNoOccurrence(a, b, sub, Find(a + b, sub).value);
    }
  }

  /** After the opening fence: the text up to the closing ``` is the body. */
  lemma FencedSegment(body: string, rest: string)
    requires '`' !in body && (rest == [] || rest[0] != '`')
    ensures FirstPiece(FirstPiece(body + Ticks + rest, Fence), Ticks) == body
  {
    var after := body + (Ticks + rest);
    assert body + Ticks + rest == after;
    assert after[|body|..|body| + 3] == Ticks;
    FoundNotBefore(body, Ticks + rest, Fence);
    match Find(after, Fence)
    case None =>
      FoundAfterTickFree(body, Ticks + rest, Ticks);
    case Some(i) =>
      if i == |body| {
        assert FirstPiece(after, Fence) == body;
        NotFoundTickFree(body, Ticks);
      } else {
        OccursCharAt(after, Fence, i, |body| + 3 - i);
        assert i >= |body| + 3;
        var seg := after[..i];
        assert seg == body + seg[|body|..];
        assert seg[|body|..|body| + 3] == Ticks;
        FoundAfterTickFree(body, seg[|body|..], Ticks);
      }
  }

  /** After backtick-free text, the first ```json fence is the one placed there. */
  lemma OpeningFence(prefix: string, after: string)
    requires '`' !in prefix
    ensures Contains(prefix + Fence + after, Fence)
    ensures SecondPiece(prefix + Fence + after, Fence) == FirstPiece(after, Fence)
  {
    var s := prefix + (Fence + after);
    assert prefix + Fence + after == s;
    assert |Fence| == 7;
    assert s[|prefix|..|prefix| + 7] == Fence;
    FoundAfterTickFree(prefix, Fence + after, Fence);
    assert s == (prefix + Fence) + after;
    assert s[|prefix + Fence|..] == after;
  }

  /**
   * A reply whose only backticks are one ```json fence and its closing
   * ``` yields exactly the fenced text, stripped.
   */
  lemma FencedBody(prefix: string, body: string, rest: string)
    requires '`' !in prefix && '`' !in body && (rest == [] || rest[0] != '`')
    ensures JsonText(prefix + Fence + body + Ticks + rest) == Strip(body)
  {
    var after := body + Ticks + rest;
    assert prefix + Fence + body + Ticks + rest == prefix + Fence + after;
    OpeningFence(prefix, after);
    FencedSegment(body, rest);
  }

  /** `json.loads` then `TripPlanResponse.model_validate`; `None` stands for the exception either raises. */
  function Validate(text: string, loads: string -> Option<Value>): Option<TripPlanResponse> {
    match loads(JsonText(text))
    case Some(VDict(d)) => ParseTripPlanResponse(d)
    case _ => None
  }

  /** A reply that decodes to a written-out plan validates to that plan. */
  lemma ValidateDumped(text: string, loads: string -> Option<Value>, plan: TripPlanResponse)
    requires loads(JsonText(text)) == Some(VDict(DumpTripPlanResponse(plan)))
    ensures Validate(text, loads) == Some(plan)
  {
    TripPlanResponseRoundTrip(plan);
  }

  // Image backfill.

  /** The photo search text for an attraction. */
  function PhotoQuery(a: Attraction, destination: string): string {
    a.name + " " + destination + " 景点 landmark tourist attraction"
  }

  /** An attraction without images gets the photo search's URL when it is non-empty. */
  function FillAttraction(a: Attraction, destination: string, lookup: string -> Option<string>): Attraction {
    if a.imageUrls != [] then a
    else match lookup(PhotoQuery(a, destination))
      case Some(u) => if u != "" then a.(imageUrls := a.imageUrls + [u]) else a
      case None => a
  }

  function FillAttractions(xs: seq<Attraction>, destination: string, lookup: string -> Option<string>): (ys: seq<Attraction>)
    ensures |ys| == |xs|
  {
    seq(|xs|, i requires 0 <= i < |xs| => FillAttraction(xs[i], destination, lookup))
  }

  function FillDay(d: DailyPlan, destination: string, lookup: string -> Option<string>): DailyPlan {
    d.(attractions := FillAttractions(d.attractions, destination, lookup))
  }

  function FillDays(ds: seq<DailyPlan>, destination: string, lookup: string -> Option<string>): (ys: seq<DailyPlan>)
    ensures |ys| == |ds|
  {
    seq(|ds|, i requires 0 <= i < |ds| => FillDay(ds[i], destination, lookup))
  }

  /** The plan after the loop over its days and their attractions, with a photo search that accepts one argument. */
  function Backfilled(p: TripPlanResponse, destination: string, lookup: string -> Option<string>): TripPlanResponse {
    p.(days := FillDays(p.days, destination, lookup))
  }

  /** The photo searches the loop makes over some attractions, in order. */
  function AttractionQueries(xs: seq<Attraction>, destination: string): seq<string> {
    if xs == [] then []
    else
      var last := xs[|xs| - 1];
      AttractionQueries(xs[..|xs| - 1], destination) + (if last.imageUrls == [] then [PhotoQuery(last, destination)] else [])
  }

  function DayQueries(days: seq<DailyPlan>, destination: string): seq<string> {
    if days == [] then []
    else DayQueries(days[..|days| - 1], destination) + AttractionQueries(days[|days| - 1].attractions, destination)
  }

  /** Some attraction of some day has no image. */
  predicate Imageless(p: TripPlanResponse) {
    exists i, j :: 0 <= i < |p.days| && 0 <= j < |p.days[i].attractions| && p.days[i].attractions[j].imageUrls == []
  }

  /**
   * The backfill changes nothing but image lists, and only empty ones: an
   * empty list stays empty or becomes the one non-empty URL the search gave.
   */
  lemma BackfillOnlyEmpty(p: TripPlanResponse, destination: string, lookup: string -> Option<string>, i: nat, j: nat)
    requires i < |p.days| && j < |p.days[i].attractions|
    ensures var q := Backfilled(p, destination, lookup);
      && q.(days := p.days) == p && |q.days| == |p.days|
      && q.days[i].(attractions := p.days[i].attractions) == p.days[i]
      && |q.days[i].attractions| == |p.days[i].attractions|
      && q.days[i].attractions[j].(imageUrls := p.days[i].attractions[j].imageUrls) == p.days[i].attractions[j]
      && (p.days[i].attractions[j].imageUrls != [] ==> q.days[i].attractions[j] == p.days[i].attractions[j])
      && (p.days[i].attractions[j].imageUrls == [] ==>
            var u := lookup(PhotoQuery(p.days[i].attractions[j], destination));
            q.days[i].attractions[j].imageUrls == (if u.Some? && u.value != "" then [u.value] else []))
  {
  }

  lemma FillTwice(a: Attraction, destination: string, lookup: string -> Option<string>)
    ensures FillAttraction(FillAttraction(a, destination, lookup), destination, lookup) == FillAttraction(a, destination, lookup)
  {
  }

  /** Backfilling twice is backfilling once: a filled list is left alone, and a failed search fails again. */
  lemma {:induction false} BackfillIdempotent(p: TripPlanResponse, destination: string, lookup: string -> Option<string>)
    ensures Backfilled(Backfilled(p, destination, lookup), destination, lookup) == Backfilled(p, destination, lookup)
  {
    var q := Backfilled(p, destination, lookup);
    var r := Backfilled(q, destination, lookup);
    forall i | 0 <= i < |p.days| ensures r.days[i] == q.days[i] {
      forall j | 0 <= j < |p.days[i].attractions|
        ensures r.days[i].attractions[j] == q.days[i].attractions[j]
      {
        FillTwice(p.days[i].attractions[j], destination, lookup);
      }
    }
  }

  /** Some attraction asks for a photo exactly when one has no image. */
  lemma {:induction false} AttractionQueriesEmpty(xs: seq<Attraction>, destination: string)
    ensures AttractionQueries(xs, destination) == [] <==> forall j :: 0 <= j < |xs| ==> xs[j].imageUrls != []
  {
    if xs != [] {
      var init := xs[..|xs| - 1];
      AttractionQueriesEmpty(init, destination);
      assert forall j :: 0 <= j < |init| ==> init[j] == xs[j];
    }
  }

  lemma {:induction false} DayQueriesEmpty(days: seq<DailyPlan>, destination: string)
    ensures DayQueries(days, destination) == [] <==>
      forall i, j :: 0 <= i < |days| && 0 <= j < |days[i].attractions| ==> days[i].attractions[j].imageUrls != []
  {
    if days != [] {
      var init := days[..|days| - 1];
      DayQueriesEmpty(init, destination);
      AttractionQueriesEmpty(days[|days| - 1].attractions, destination);
      assert forall i :: 0 <= i < |init| ==> init[i] == days[i];
    }
  }

  /** The backfill searches for photos exactly when some attraction has no image. */
  lemma SearchesIffImageless(p: TripPlanResponse, destination: string)
    ensures DayQueries(p.days, destination) != [] <==> Imageless(p)
  {
    DayQueriesEmpty(p.days, destination);
  }

  /**
   * Lines 306-319 as written: the call passes `ensure_attraction=True` to a
   * `get_photo_url` that takes only the query, so the first attraction
   * without images raises `TypeError` before any search, and the `except`
   * turns the whole plan into `None`.
   */
  function BackfillAsWritten(p: TripPlanResponse): Option<TripPlanResponse> {
    if Imageless(p) then None else Some(p)
  }

  /**
   * As written, a validated plan is lost exactly when the backfill had work
   * to do; otherwise it is the plan the intended backfill returns.
   */
  lemma AsWrittenLosesImagelessPlans(p: TripPlanResponse, destination: string, lookup: string -> Option<string>)
    ensures BackfillAsWritten(p) == None <==> Imageless(p)
    ensures !Imageless(p) ==> BackfillAsWritten(p) == Some(Backfilled(p, destination, lookup))
  {
    if !Imageless(p) {
      var q := Backfilled(p, destination, lookup);
      forall i | 0 <= i < |p.days| ensures q.days[i] == p.days[i] {
        assert forall j :: 0 <= j < |p.days[i].attractions| ==> p.days[i].attractions[j].imageUrls != [];
        assert FillAttractions(p.days[i].attractions, destination, lookup) == p.days[i].attractions;
      }
      assert q.days == p.days;
    }
  }

  /** One attraction without a picture: the written code loses the plan, the intended one fills the picture in. */
  lemma ImagelessPlanExample()
    ensures var p := TripPlanResponse("北京一日游", ZeroBudget, [], [DefaultDailyPlan(1).(attractions := [DefaultAttraction("故宫")])]);
      var lookup := (q: string) => Some("https://images.example/1.jpg");
      && BackfillAsWritten(p) == None
      && Backfilled(p, "北京", lookup).days[0].attractions[0].imageUrls == ["https://images.example/1.jpg"]
  {
    var p := TripPlanResponse("北京一日游", ZeroBudget, [], [DefaultDailyPlan(1).(attractions := [DefaultAttraction("故宫")])]);
    assert p.days[0].attractions[0].imageUrls == [];
  }

  /** What `plan_trip` returns once the planner has replied, with the intended backfill (the corrected half of the backfill finding). */
  function Finish(text: string, loads: string -> Option<Value>, destination: string, lookup: string -> Option<string>): Option<TripPlanResponse> {
    if text == "" then None
    else match Validate(text, loads)
      case None => None
      case Some(p) => Some(Backfilled(p, destination, lookup))
  }

  /** An empty reply, an undecodable reply and an invalid plan all give `None`, and nothing else does. */
  lemma FinishNoneIff(text: string, loads: string -> Option<Value>, destination: string, lookup: string -> Option<string>)
    ensures Finish(text, loads, destination, lookup) == None <==> text == "" || Validate(text, loads) == None
    ensures Finish(text, loads, destination, lookup).Some? ==>
      var p := Validate(text, loads).value;
      var q := Finish(text, loads, destination, lookup).value;
      q.tripTitle == p.tripTitle && q.totalBudget == p.totalBudget && q.hotels == p.hotels && |q.days| == |p.days|
  {
  }

  /** What `plan_trip` returns once the planner has replied, as written: the backfill raises on any plan it has work for. */
  function FinishAsWritten(text: string, loads: string -> Option<Value>): Option<TripPlanResponse> {
    if text == "" then None
    else match Validate(text, loads)
      case None => None
      case Some(p) => BackfillAsWritten(p)
  }

  /**
   * As written, `None` comes from an empty, undecodable or invalid reply and
   * also from every valid plan with an attraction without images. A plan
   * that is returned is the one the intended backfill returns, and the
   * intended backfill makes no photo search for it.
   */
  lemma FinishAsWrittenNoneIff(text: string, loads: string -> Option<Value>, destination: string, lookup: string -> Option<string>)
    ensures FinishAsWritten(text, loads) == None <==>
      text == "" || Validate(text, loads) == None || Imageless(Validate(text, loads).value)
    ensures FinishAsWritten(text, loads).Some? ==>
      && FinishAsWritten(text, loads) == Finish(text, loads, destination, lookup)
      && FinishQueries(text, loads, destination) == []
  {
    if text != "" && Validate(text, loads).Some? {
      var p := Validate(text, loads).value;
      AsWrittenLosesImagelessPlans(p, destination, lookup);
      SearchesIffImageless(p, destination);
    }
  }

  /** The photo searches made once the planner has replied: those of the backfill, if a plan validated. */
  function FinishQueries(text: string, loads: string -> Option<Value>, destination: string): seq<string> {
    if text == "" then []
    else match Validate(text, loads)
      case None => []
      case Some(p) => DayQueries(p.days, destination)
  }

  /** The three searches in the order `plan_trip` runs them, as (agent name, input). */
  function Searches(req: TripPlanRequest): seq<(string, string)> {
    [(AttractionAgentName, AttractionQuery(req)), (HotelAgentName, HotelQuery(req)), (WeatherAgentName, WeatherQuery(req))]
  }

  // The orchestrator and its collaborators.

  /** The order in which agents were run, as (agent name, input). */
  class Trace {
    var calls: seq<(string, string)>

    constructor ()
      ensures calls == []
    {
      calls := [];
    }
  }

  /** A `SimpleAgent`: its reply depends on what it was asked before and on the new input. */
  class Agent {
    const name: string
    const respond: (seq<string>, string) -> string
    var inputs: seq<string>

    constructor (name: string, respond: (seq<string>, string) -> string)
      ensures this.name == name && this.respond == respond && inputs == []
    {
      this.name := name;
      this.respond := respond;
      inputs := [];
    }

    /** `run(input)` */
    method Run(input: string, trace: Trace) returns (out: string)
      modifies this, trace
      ensures inputs == old(inputs) + [input]
      ensures trace.calls == old(trace.calls) + [(name, input)]
      ensures out == respond(old(inputs), input)
    {
      out := respond(inputs, input);
      inputs := inputs + [input];
      trace.calls := trace.calls + [(name, input)];
    }
  }

  /** `get_photo_url(query)`: the first photo's URL, if any; `queries` logs the searches made. */
  class PhotoService {
    const lookup: string -> Option<string>
    var queries: seq<string>

    constructor (lookup: string -> Option<string>)
      ensures this.lookup == lookup && queries == []
    {
      this.lookup := lookup;
      queries := [];
    }

    method GetPhotoUrl(query: string) returns (url: Option<string>)
      modifies this
      ensures queries == old(queries) + [query]
      ensures url == lookup(query)
    {
      queries := queries + [query];
      url := lookup(query);
    }
  }

  /** The inner loop of the backfill over one day's attractions. */
  method FillAttractionsIn(xs: seq<Attraction>, destination: string, photos: PhotoService) returns (ys: seq<Attraction>)
    modifies photos
    ensures ys == FillAttractions(xs, destination, photos.lookup)
    ensures photos.queries == old(photos.queries) + AttractionQueries(xs, destination)
  {
    ys := [];
    var i := 0;
    while i < |xs|
      invariant 0 <= i <= |xs|
      invariant |ys| == i && forall j :: 0 <= j < i ==> ys[j] == FillAttraction(xs[j], destination, photos.lookup)
      invariant photos.queries == old(photos.queries) + AttractionQueries(xs[..i], destination)
    {
      var a := xs[i];
      if a.imageUrls == [] {
        var url := photos.GetPhotoUrl(PhotoQuery(a, destination));
        if url.Some? && url.value != "" {
          a := a.(imageUrls := a.imageUrls + [url.value]);
        }
      }
      ys := ys + [a];
      assert xs[..i + 1][..i] == xs[..i];
      i := i + 1;
    }
    assert xs[..i] == xs;
  }

  lemma DayQueriesStep(days: seq<DailyPlan>, i: nat, destination: string)
    requires i < |days|
    ensures DayQueries(days[..i + 1], destination) == DayQueries(days[..i], destination) + AttractionQueries(days[i].attractions, destination)
  {
    assert days[..i + 1][..i] == days[..i];
  }

  lemma FillDaysStep(ds: seq<DailyPlan>, i: nat, destination: string, lookup: string -> Option<string>)
    requires i < |ds|
    ensures FillDays(ds[..i + 1], destination, lookup) == FillDays(ds[..i], destination, lookup) + [FillDay(ds[i], destination, lookup)]
  {
  }

  /** The image backfill over every day, with the one-argument photo search. */
  method BackfillImages(p: TripPlanResponse, destination: string, photos: PhotoService) returns (q: TripPlanResponse)
    modifies photos
    ensures q == Backfilled(p, destination, photos.lookup)
    ensures photos.queries == old(photos.queries) + DayQueries(p.days, destination)
  {
    var days: seq<DailyPlan> := [];
    for i := 0 to |p.days|
      invariant days == FillDays(p.days[..i], destination, photos.lookup)
      invariant photos.queries == old(photos.queries) + DayQueries(p.days[..i], destination)
    {
      var d := p.days[i];
      var filled := FillAttractionsIn(d.attractions, destination, photos);
      FillDaysStep(p.days, i, destination, photos.lookup);
      DayQueriesStep(p.days, i, destination);
      days := days + [d.(attractions := filled)];
    }
    assert p.days[..|p.days|] == p.days;
    q := p.(days := days);
  }

  const AttractionAgentName: string := "景点搜索专家"
  const WeatherAgentName: string := "天气查询专家"
  const HotelAgentName: string := "酒店推荐专家"
  const PlannerAgentName: string := "行程规划专家"

  /** `PlannerAgent`: four agents, the photo service, and `json.loads`. */
  class PlannerAgent {
    const attractionAgent: Agent
    const weatherAgent: Agent
    const hotelAgent: Agent
    const plannerAgent: Agent
    const photos: PhotoService
    const loads: string -> Option<Value>
    /** Where the agents record their runs; not part of the running system. */
    const trace: Trace

    /** Four distinct agents with their fixed names. */
    ghost predicate Valid()
      reads this
    {
      && attractionAgent != weatherAgent && attractionAgent != hotelAgent && attractionAgent != plannerAgent
      && weatherAgent != hotelAgent && weatherAgent != plannerAgent && hotelAgent != plannerAgent
      && attractionAgent.name == AttractionAgentName && weatherAgent.name == WeatherAgentName
      && hotelAgent.name == HotelAgentName && plannerAgent.name == PlannerAgentName
    }

    constructor (
      attractionLlm: (seq<string>, string) -> string, weatherLlm: (seq<string>, string) -> string,
      hotelLlm: (seq<string>, string) -> string, plannerLlm: (seq<string>, string) -> string,
      lookup: string -> Option<string>, loads: string -> Option<Value>)
      ensures Valid()
      ensures attractionAgent.respond == attractionLlm && weatherAgent.respond == weatherLlm
      ensures hotelAgent.respond == hotelLlm && plannerAgent.respond == plannerLlm
      ensures attractionAgent.inputs == weatherAgent.inputs == hotelAgent.inputs == plannerAgent.inputs == []
      ensures photos.lookup == lookup && photos.queries == [] && this.loads == loads && trace.calls == []
    {
      attractionAgent := new Agent(AttractionAgentName, attractionLlm);
      weatherAgent := new Agent(WeatherAgentName, weatherLlm);
      hotelAgent := new Agent(HotelAgentName, hotelLlm);
      plannerAgent := new Agent(PlannerAgentName, plannerLlm);
      photos := new PhotoService(lookup);
      this.loads := loads;
      trace := new Trace();
    }

    /** The attraction, hotel and weather agents, run once each in that order. */
    method Search(req: TripPlanRequest) returns (attractions: string, hotels: string, weather: string)
      requires Valid()
      modifies attractionAgent, hotelAgent, weatherAgent, trace
      ensures attractionAgent.inputs == old(attractionAgent.inputs) + [AttractionQuery(req)]
      ensures hotelAgent.inputs == old(hotelAgent.inputs) + [HotelQuery(req)]
      ensures weatherAgent.inputs == old(weatherAgent.inputs) + [WeatherQuery(req)]
      ensures attractions == attractionAgent.respond(old(attractionAgent.inputs), AttractionQuery(req))
      ensures hotels == hotelAgent.respond(old(hotelAgent.inputs), HotelQuery(req))
      ensures weather == weatherAgent.respond(old(weatherAgent.inputs), WeatherQuery(req))
      ensures trace.calls == old(trace.calls) + Searches(req)
    {
      attractions := attractionAgent.Run(AttractionQuery(req), trace);
      hotels := hotelAgent.Run(HotelQuery(req), trace);
      weather := weatherAgent.Run(WeatherQuery(req), trace);
    }

    /** The end of `plan_trip` once the planner has replied: extract, validate, backfill. */
    method Complete(text: string, destination: string) returns (plan: Option<TripPlanResponse>)
      modifies photos
      ensures plan == Finish(text, loads, destination, photos.lookup)
      ensures photos.queries == old(photos.queries) + FinishQueries(text, loads, destination)
    {
      if text == "" {
        plan := None;
      } else {
        var validated := Validate(text, loads);
        if validated.None? {
          plan := None;
        } else {
          var filled := BackfillImages(validated.value, destination, photos);
          plan := Some(filled);
        }
      }
    }

    /**
     * `plan_trip(request)`: the attraction, hotel and weather agents run once
     * each in that order; then the prompt is built, where a bad date raises
     * `ValueError` out of the method; then the planner agent runs once, and
     * its reply is extracted, validated and backfilled, with every failure
     * after the reply giving `None`.
     */
    method PlanTrip(req: TripPlanRequest) returns (r: PlanOutcome)
      requires Valid()
      modifies attractionAgent, hotelAgent, weatherAgent, plannerAgent, photos, trace
      ensures attractionAgent.inputs == old(attractionAgent.inputs) + [AttractionQuery(req)]
      ensures hotelAgent.inputs == old(hotelAgent.inputs) + [HotelQuery(req)]
      ensures weatherAgent.inputs == old(weatherAgent.inputs) + [WeatherQuery(req)]
      ensures
        var a := attractionAgent.respond(old(attractionAgent.inputs), AttractionQuery(req));
        var h := hotelAgent.respond(old(hotelAgent.inputs), HotelQuery(req));
        var w := weatherAgent.respond(old(weatherAgent.inputs), WeatherQuery(req));
        match ConstructPrompt(req, a, h, w)
        case ValueError(m) =>
          && r == RaisedOther("ValueError", m)
          && trace.calls == old(trace.calls) + Searches(req)
          && plannerAgent.inputs == old(plannerAgent.inputs)
          && photos.queries == old(photos.queries)
        case Built(prompt) =>
          var text := plannerAgent.respond(old(plannerAgent.inputs), prompt);
          && r == Returned(Finish(text, loads, req.destination, photos.lookup))
          && trace.calls == old(trace.calls) + Searches(req) + [(PlannerAgentName, prompt)]
          && plannerAgent.inputs == old(plannerAgent.inputs) + [prompt]
          && photos.queries == old(photos.queries) + FinishQueries(text, loads, req.destination)
    {
      var attractions, hotels, weather := Search(req);
      var built := ConstructPrompt(req, attractions, hotels, weather);
      if built.ValueError? {
        r := RaisedOther("ValueError", built.message);
      } else {
        var text := plannerAgent.Run(built.prompt, trace);
        var plan := Complete(text, req.destination);
        r := Returned(plan);
      }
    }
  }
}
