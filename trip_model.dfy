/**
 * The trip request and the structured plan response, with their defaults
 * and their validation from a decoded JSON object, in the same style as the
 * shared records they contain.
 */
module TripModels {
  import opened Wrappers
  import opened Dicts
  import opened Values
  import opened CommonModels

  datatype TripPlanRequest = TripPlanRequest(
    destination: string,
    startDate: string,
    endDate: string,
    preferences: seq<string>,
    hotelPreferences: seq<string>,
    budget: string)

  const DefaultBudgetLevel: string := "中等"

  /**
   * The five-way cost split shared by `BudgetBreakdown` and `DailyBudget`;
   * `total` is described as the sum of the other four but nothing checks it.
   */
  datatype Budget = Budget(transportCost: real, diningCost: real, hotelCost: real, attractionTicketCost: real, total: real)

  type BudgetBreakdown = Budget
  type DailyBudget = Budget

  const ZeroBudget: Budget := Budget(0.0, 0.0, 0.0, 0.0, 0.0)

  datatype DailyPlan = DailyPlan(
    day: int,
    theme: string,
    weather: Option<Weather>,
    recommendedHotel: Option<Hotel>,
    attractions: seq<Attraction>,
    dinings: seq<Dining>,
    budget: DailyBudget)

  datatype TripPlanResponse = TripPlanResponse(
    tripTitle: string,
    totalBudget: BudgetBreakdown,
    hotels: seq<Hotel>,
    days: seq<DailyPlan>)

  function DefaultDailyPlan(day: int): DailyPlan {
    DailyPlan(day, "", None, None, [], [], ZeroBudget)
  }

  // Validators of nested fields.

  /** A required `int` field. */
  function Int(d: Obj, k: string): Option<int> {
    if k in d.m && d.m[k].VInt? then Some(d.m[k].i) else None
  }

  /** Every element an object that the record validator accepts. */
  function ParseEach<T>(vs: seq<Value>, p: Obj -> Option<T>): (r: Option<seq<T>>)
    ensures r.Some? ==> |r.value| == |vs|
    ensures r.Some? ==> forall i :: 0 <= i < |vs| ==> vs[i].VDict? && p(vs[i].d) == Some(r.value[i])
  {
    if vs == [] then Some([])
    else if !vs[0].VDict? then None
    else match p(vs[0].d)
      case None => None
      case Some(x) =>
        match ParseEach(vs[1..], p)
        case None => None
        case Some(xs) => Some([x] + xs)
  }

  /** A list-of-records field; absent means `default` (or a validation error when `None`). */
  function ListField<T>(d: Obj, k: string, p: Obj -> Option<T>, default: Option<seq<T>>): (r: Option<seq<T>>)
    ensures k !in d.m ==> r == default
  {
    if k !in d.m then default
    else if d.m[k].VList? then ParseEach(d.m[k].items, p)
    else None
  }

  /** An optional record field defaulting to `None`. */
  function OptRecord<T>(d: Obj, k: string, p: Obj -> Option<T>): (r: Option<Option<T>>)
    ensures k !in d.m ==> r == Some(None)
  {
    if k !in d.m || d.m[k].VNone? then Some(None)
    else if d.m[k].VDict? then
      match p(d.m[k].d)
      case Some(x) => Some(Some(x))
      case None => None
    else None
  }

  /** A record field; absent means `default`. */
  function RecordField<T>(d: Obj, k: string, p: Obj -> Option<T>, default: Option<T>): (r: Option<T>)
    ensures k !in d.m ==> r == default
  {
    if k !in d.m then default
    else if d.m[k].VDict? then p(d.m[k].d)
    else None
  }

  // Validation of each record.

  function ParseTripPlanRequest(d: Obj): (r: Option<TripPlanRequest>)
    ensures r.Some? ==> Str(d, "destination").Some? && Str(d, "start_date").Some? && Str(d, "end_date").Some?
  {
    var destination := Str(d, "destination");
    var start := Str(d, "start_date");
    var end := Str(d, "end_date");
    var prefs := StrListOr(d, "preferences");
    var hotelPrefs := StrListOr(d, "hotel_preferences");
    var budget := StrOr(d, "budget", DefaultBudgetLevel);
    if destination.Some? && start.Some? && end.Some? && prefs.Some? && hotelPrefs.Some? && budget.Some?
    then Some(TripPlanRequest(destination.value, start.value, end.value, prefs.value, hotelPrefs.value, budget.value))
    else None
  }

  function ParseBudget(d: Obj): Option<Budget> {
    var transport := RealOr(d, "transport_cost", 0.0);
    var dining := RealOr(d, "dining_cost", 0.0);
    var hotel := RealOr(d, "hotel_cost", 0.0);
    var tickets := RealOr(d, "attraction_ticket_cost", 0.0);
    var total := RealOr(d, "total", 0.0);
    if transport.Some? && dining.Some? && hotel.Some? && tickets.Some? && total.Some?
    then Some(Budget(transport.value, dining.value, hotel.value, tickets.value, total.value))
    else None
  }

  function ParseDailyPlan(d: Obj): (r: Option<DailyPlan>)
    ensures Int(d, "day").None? ==> r.None?
  {
    var day := Int(d, "day");
    var theme := StrOr(d, "theme", "");
    var weather := OptRecord(d, "weather", ParseWeather);
    var hotel := OptRecord(d, "recommended_hotel", ParseHotel);
    var attractions := ListField(d, "attractions", ParseAttraction, Some([]));
    var dinings := ListField(d, "dinings", ParseDining, Some([]));
    var budget := RecordField(d, "budget", ParseBudget, Some(ZeroBudget));
    if day.Some? && theme.Some? && weather.Some? && hotel.Some? && attractions.Some? && dinings.Some? && budget.Some?
    then Some(DailyPlan(day.value, theme.value, weather.value, hotel.value, attractions.value, dinings.value, budget.value))
    else None
  }

  function ParseTripPlanResponse(d: Obj): (r: Option<TripPlanResponse>)
    ensures r.Some? ==> Str(d, "trip_title").Some? && "total_budget" in d.m && "days" in d.m
  {
    var title := Str(d, "trip_title");
    var budget := RecordField(d, "total_budget", ParseBudget, None);
    var hotels := ListField(d, "hotels", ParseHotel, Some([]));
    var days := ListField(d, "days", ParseDailyPlan, None);
    if title.Some? && budget.Some? && hotels.Some? && days.Some?
    then Some(TripPlanResponse(title.value, budget.value, hotels.value, days.value))
    else None
  }

  // The records as JSON objects.

  function DumpEach<T>(xs: seq<T>, dump: T -> Obj): (r: seq<Value>)
    ensures |r| == |xs| && forall i :: 0 <= i < |xs| ==> r[i] == VDict(dump(xs[i]))
  {
    if xs == [] then [] else [VDict(dump(xs[0]))] + DumpEach(xs[1..], dump)
  }

  function OptRecordValue<T>(x: Option<T>, dump: T -> Obj): Value {
    match x
    case None => VNone
    case Some(v) => VDict(dump(v))
  }

  function DumpBudget(b: Budget): Obj {
    Dict(["transport_cost", "dining_cost", "hotel_cost", "attraction_ticket_cost", "total"],
      map["transport_cost" := VReal(b.transportCost),
          "dining_cost" := VReal(b.diningCost),
          "hotel_cost" := VReal(b.hotelCost),
          "attraction_ticket_cost" := VReal(b.attractionTicketCost),
          "total" := VReal(b.total)])
  }

  function DumpDailyPlan(p: DailyPlan): Obj {
    Dict(["day", "theme", "weather", "recommended_hotel", "attractions", "dinings", "budget"],
      map["day" := VInt(p.day),
          "theme" := VStr(p.theme),
          "weather" := OptRecordValue(p.weather, DumpWeather),
          "recommended_hotel" := OptRecordValue(p.recommendedHotel, DumpHotel),
          "attractions" := VList(DumpEach(p.attractions, DumpAttraction)),
          "dinings" := VList(DumpEach(p.dinings, DumpDining)),
          "budget" := VDict(DumpBudget(p.budget))])
  }

  function DumpTripPlanResponse(t: TripPlanResponse): Obj {
    Dict(["trip_title", "total_budget", "hotels", "days"],
      map["trip_title" := VStr(t.tripTitle),
          "total_budget" := VDict(DumpBudget(t.totalBudget)),
          "hotels" := VList(DumpEach(t.hotels, DumpHotel)),
          "days" := VList(DumpEach(t.days, DumpDailyPlan))])
  }

  // Round trips.

  /** A list of records survives dumping when each record does. */
  lemma {:induction false} EachRoundTrip<T>(xs: seq<T>, dump: T -> Obj, p: Obj -> Option<T>)
    requires forall i :: 0 <= i < |xs| ==> p(dump(xs[i])) == Some(xs[i])
    ensures ParseEach(DumpEach(xs, dump), p) == Some(xs)
  {
    if xs != [] {
      EachRoundTrip(xs[1..], dump, p);
      assert DumpEach(xs, dump)[1..] == DumpEach(xs[1..], dump);
      assert [xs[0]] + xs[1..] == xs;
    }
  }

  lemma BudgetRoundTrip(b: Budget)
    ensures ParseBudget(DumpBudget(b)) == Some(b)
  {
  }

  lemma ListFieldRoundTrip<T>(d: Obj, k: string, xs: seq<T>, dump: T -> Obj, p: Obj -> Option<T>, default: Option<seq<T>>)
    requires k in d.m && d.m[k] == VList(DumpEach(xs, dump))
    requires forall i :: 0 <= i < |xs| ==> p(dump(xs[i])) == Some(xs[i])
    ensures ListField(d, k, p, default) == Some(xs)
  {
    EachRoundTrip(xs, dump, p);
  }

  lemma OptRecordRoundTrip<T>(d: Obj, k: string, x: Option<T>, dump: T -> Obj, p: Obj -> Option<T>)
    requires k in d.m && d.m[k] == OptRecordValue(x, dump)
    requires x.Some? ==> p(dump(x.value)) == x
    ensures OptRecord(d, k, p) == Some(x)
  {
  }

  lemma RecordFieldRoundTrip<T>(d: Obj, k: string, x: T, dump: T -> Obj, p: Obj -> Option<T>, default: Option<T>)
    requires k in d.m && d.m[k] == VDict(dump(x))
    requires p(dump(x)) == Some(x)
    ensures RecordField(d, k, p, default) == Some(x)
  {
  }

  lemma AttractionsRoundTrip(xs: seq<Attraction>)
    ensures ParseEach(DumpEach(xs, DumpAttraction), ParseAttraction) == Some(xs)
  {
    forall i | 0 <= i < |xs|
      ensures ParseAttraction(DumpAttraction(xs[i])) == Some(xs[i])
    {
      AttractionRoundTrip(xs[i]);
    }
    EachRoundTrip(xs, DumpAttraction, ParseAttraction);
  }

  lemma DiningsRoundTrip(xs: seq<Dining>)
    ensures ParseEach(DumpEach(xs, DumpDining), ParseDining) == Some(xs)
  {
    forall i | 0 <= i < |xs|
      ensures ParseDining(DumpDining(xs[i])) == Some(xs[i])
    {
      DiningRoundTrip(xs[i]);
    }
    EachRoundTrip(xs, DumpDining, ParseDining);
  }

  lemma HotelsRoundTrip(xs: seq<Hotel>)
    ensures ParseEach(DumpEach(xs, DumpHotel), ParseHotel) == Some(xs)
  {
    forall i | 0 <= i < |xs|
      ensures ParseHotel(DumpHotel(xs[i])) == Some(xs[i])
    {
      HotelRoundTrip(xs[i]);
    }
    EachRoundTrip(xs, DumpHotel, ParseHotel);
  }

  /** Each field of a dumped daily plan validates back to the field. */
  lemma DailyPlanFields(p: DailyPlan)
    ensures var d := DumpDailyPlan(p);
      && Int(d, "day") == Some(p.day)
      && StrOr(d, "theme", "") == Some(p.theme)
      && OptRecord(d, "weather", ParseWeather) == Some(p.weather)
      && OptRecord(d, "recommended_hotel", ParseHotel) == Some(p.recommendedHotel)
      && ListField(d, "attractions", ParseAttraction, Some([])) == Some(p.attractions)
      && ListField(d, "dinings", ParseDining, Some([])) == Some(p.dinings)
      && RecordField(d, "budget", ParseBudget, Some(ZeroBudget)) == Some(p.budget)
  {
    var d := DumpDailyPlan(p);
    DailyPlanMap(p);
    DailyPlanRecords(p, d);
    DailyPlanLists(p, d);
    BudgetRoundTrip(p.budget);
    RecordFieldRoundTrip(d, "budget", p.budget, DumpBudget, ParseBudget, Some(ZeroBudget));
  }

  lemma DailyPlanRecords(p: DailyPlan, d: Obj)
    requires "weather" in d.m && d.m["weather"] == OptRecordValue(p.weather, DumpWeather)
    requires "recommended_hotel" in d.m && d.m["recommended_hotel"] == OptRecordValue(p.recommendedHotel, DumpHotel)
    ensures OptRecord(d, "weather", ParseWeather) == Some(p.weather)
    ensures OptRecord(d, "recommended_hotel", ParseHotel) == Some(p.recommendedHotel)
  {
    if p.weather.Some? {
      WeatherRoundTrip(p.weather.value);
    }
    OptRecordRoundTrip(d, "weather", p.weather, DumpWeather, ParseWeather);
    if p.recommendedHotel.Some? {
      HotelRoundTrip(p.recommendedHotel.value);
    }
    OptRecordRoundTrip(d, "recommended_hotel", p.recommendedHotel, DumpHotel, ParseHotel);
  }

  lemma DailyPlanLists(p: DailyPlan, d: Obj)
    requires "attractions" in d.m && d.m["attractions"] == VList(DumpEach(p.attractions, DumpAttraction))
    requires "dinings" in d.m && d.m["dinings"] == VList(DumpEach(p.dinings, DumpDining))
    ensures ListField(d, "attractions", ParseAttraction, Some([])) == Some(p.attractions)
    ensures ListField(d, "dinings", ParseDining, Some([])) == Some(p.dinings)
  {
    AttractionsRoundTrip(p.attractions);
    DiningsRoundTrip(p.dinings);
  }

  lemma DailyPlanMap(p: DailyPlan)
    ensures DumpDailyPlan(p).m == map[
      "day" := VInt(p.day),
      "theme" := VStr(p.theme),
      "weather" := OptRecordValue(p.weather, DumpWeather),
      "recommended_hotel" := OptRecordValue(p.recommendedHotel, DumpHotel),
      "attractions" := VList(DumpEach(p.attractions, DumpAttraction)),
      "dinings" := VList(DumpEach(p.dinings, DumpDining)),
      "budget" := VDict(DumpBudget(p.budget))]
  {
  }

  lemma DailyPlanRoundTrip(p: DailyPlan)
    ensures ParseDailyPlan(DumpDailyPlan(p)) == Some(p)
  {
    DailyPlanFields(p);
  }

  lemma DailyPlansRoundTrip(xs: seq<DailyPlan>)
    ensures ParseEach(DumpEach(xs, DumpDailyPlan), ParseDailyPlan) == Some(xs)
  {
    forall i | 0 <= i < |xs|
      ensures ParseDailyPlan(DumpDailyPlan(xs[i])) == Some(xs[i])
    {
      DailyPlanRoundTrip(xs[i]);
    }
    EachRoundTrip(xs, DumpDailyPlan, ParseDailyPlan);
  }

  /** A plan survives being written out as JSON and validated again. */
  lemma TripPlanResponseRoundTrip(t: TripPlanResponse)
    ensures ParseTripPlanResponse(DumpTripPlanResponse(t)) == Some(t)
  {
    var d := DumpTripPlanResponse(t);
    BudgetRoundTrip(t.totalBudget);
    RecordFieldRoundTrip(d, "total_budget", t.totalBudget, DumpBudget, ParseBudget, None);
    HotelsRoundTrip(t.hotels);
    assert ListField(d, "hotels", ParseHotel, Some([])) == Some(t.hotels);
    DailyPlansRoundTrip(t.days);
    assert ListField(d, "days", ParseDailyPlan, None) == Some(t.days);
  }

  // Required fields and defaults.

  /** Destination and both dates are required; the lists default to empty and the budget to "中等". */
  lemma RequestDefaults(destination: string, start: string, end: string)
    ensures ParseTripPlanRequest(Empty().Put("destination", VStr(destination)).Put("start_date", VStr(start))
                                        .Put("end_date", VStr(end)))
            == Some(TripPlanRequest(destination, start, end, [], [], DefaultBudgetLevel))
    ensures ParseTripPlanRequest(Empty().Put("destination", VStr(destination)).Put("start_date", VStr(start))).None?
  {
  }

  /** Every budget field defaults to 0.0, and the total is not checked against the parts. */
  lemma BudgetDefaults()
    ensures ParseBudget(Empty()) == Some(ZeroBudget)
    ensures ParseBudget(Empty().Put("total", VReal(5.0))) == Some(Budget(0.0, 0.0, 0.0, 0.0, 5.0))
  {
  }

  /** A day number alone makes a daily plan with every other field at its default. */
  lemma DailyPlanDayOnly(day: int)
    ensures ParseDailyPlan(Empty().Put("day", VInt(day))) == Some(DefaultDailyPlan(day))
    ensures ParseDailyPlan(Empty()).None?
  {
  }

  /** Title, total budget and days are required; hotels default to empty. */
  lemma ResponseRequiredFields(title: string)
    ensures ParseTripPlanResponse(Empty().Put("trip_title", VStr(title)).Put("total_budget", VDict(Empty()))
                                         .Put("days", VList([])))
            == Some(TripPlanResponse(title, ZeroBudget, [], []))
    ensures ParseTripPlanResponse(Empty().Put("trip_title", VStr(title)).Put("days", VList([]))).None?
  {
  }
}
