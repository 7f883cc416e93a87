/**
 * The shared response records (location, attraction, hotel, dining,
 * weather) with their field defaults, and the validation that builds each
 * from a decoded JSON object: a required field must be present with its
 * type, a defaulted field takes its default when absent, and any field of
 * the wrong type rejects the object. `Dump` is the record as a JSON object;
 * every record survives `Dump` followed by validation.
 */
module CommonModels {
  import opened Wrappers
  import opened Dicts
  import opened Values

  /** A `float | str` field. */
  datatype NumOrText = Num(x: real) | Text(s: string)

  const NotAvailable: NumOrText := Text("N/A")

  datatype Location = Location(lat: real, lng: real)

  datatype Attraction = Attraction(
    name: string,
    kind: string,
    rating: NumOrText,
    suggestedDurationHours: Option<real>,
    description: string,
    address: string,
    location: Option<Location>,
    imageUrls: seq<string>,
    ticketPrice: NumOrText)

  datatype Hotel = Hotel(
    name: string,
    address: string,
    location: Option<Location>,
    price: NumOrText,
    rating: NumOrText,
    distanceToMainAttractionKm: Option<real>)

  datatype Dining = Dining(
    name: string,
    address: string,
    location: Option<Location>,
    costPerPerson: NumOrText,
    rating: NumOrText)

  datatype Weather = Weather(
    date: string,
    dayWeather: string,
    nightWeather: string,
    dayTemp: string,
    nightTemp: string,
    dayWind: Option<string>,
    nightWind: Option<string>)

  /** The records built from only their required fields. */
  function DefaultAttraction(name: string): Attraction {
    Attraction(name, "", NotAvailable, None, "", "", None, [], NotAvailable)
  }

  function DefaultHotel(name: string): Hotel {
    Hotel(name, "", None, NotAvailable, NotAvailable, None)
  }

  function DefaultDining(name: string): Dining {
    Dining(name, "", None, NotAvailable, NotAvailable)
  }

  // Field validators: `None` is a validation error.

  /** A number field: an int or a float. */
  function AsNumber(v: Value): Option<real> {
    match v
    case VInt(i) => Some(i as real)
    case VReal(r) => Some(r)
    case _ => None
  }

  /** A required `str` field. */
  function Str(d: Obj, k: string): (r: Option<string>)
    ensures r.Some? <==> k in d.m && d.m[k].VStr?
  {
    GetStr(d, k)
  }

  /** A `str` field with a default. */
  function StrOr(d: Obj, k: string, default: string): (r: Option<string>)
    ensures k !in d.m ==> r == Some(default)
  {
    if k !in d.m then Some(default)
    else if d.m[k].VStr? then Some(d.m[k].s)
    else None
  }

  /** A required `float` field. */
  function Real(d: Obj, k: string): Option<real> {
    if k in d.m then AsNumber(d.m[k]) else None
  }

  /** A `float` field with a default. */
  function RealOr(d: Obj, k: string, default: real): (r: Option<real>)
    ensures k !in d.m ==> r == Some(default)
  {
    if k !in d.m then Some(default) else AsNumber(d.m[k])
  }

  /** A `float | str` field defaulting to "N/A". */
  function NumOrTextOr(d: Obj, k: string): (r: Option<NumOrText>)
    ensures k !in d.m ==> r == Some(NotAvailable)
  {
    if k !in d.m then Some(NotAvailable)
    else if d.m[k].VStr? then Some(Text(d.m[k].s))
    else match AsNumber(d.m[k])
      case Some(x) => Some(Num(x))
      case None => None
  }

  /** A `float | None` field defaulting to `None`. */
  function OptReal(d: Obj, k: string): (r: Option<Option<real>>)
    ensures k !in d.m ==> r == Some(None)
  {
    if k !in d.m || d.m[k].VNone? then Some(None)
    else match AsNumber(d.m[k])
      case Some(x) => Some(Some(x))
      case None => None
  }

  /** A `str | None` field defaulting to `None`. */
  function OptStr(d: Obj, k: string): (r: Option<Option<string>>)
    ensures k !in d.m ==> r == Some(None)
  {
    if k !in d.m || d.m[k].VNone? then Some(None)
    else if d.m[k].VStr? then Some(Some(d.m[k].s))
    else None
  }

  /** A `List[str]` field defaulting to `[]`; any non-string element rejects it. */
  function StrListOr(d: Obj, k: string): (r: Option<seq<string>>)
    ensures k !in d.m ==> r == Some([])
  {
    if k !in d.m then Some([])
    else if d.m[k].VList? && forall i :: 0 <= i < |d.m[k].items| ==> d.m[k].items[i].VStr? then Some(Strs(d.m[k].items))
    else None
  }

  /** A `Location | None` field defaulting to `None`. */
  function OptLocation(d: Obj, k: string): (r: Option<Option<Location>>)
    ensures k !in d.m ==> r == Some(None)
  {
    if k !in d.m || d.m[k].VNone? then Some(None)
    else if d.m[k].VDict? then
      match ParseLocation(d.m[k].d)
      case Some(l) => Some(Some(l))
      case None => None
    else None
  }

  // Validation of each record.

  function ParseLocation(d: Obj): (r: Option<Location>)
    ensures r.Some? <==> Real(d, "lat").Some? && Real(d, "lng").Some?
  {
    var lat := Real(d, "lat");
    var lng := Real(d, "lng");
    if lat.Some? && lng.Some? then Some(Location(lat.value, lng.value)) else None
  }

  function ParseAttraction(d: Obj): (r: Option<Attraction>)
    ensures Str(d, "name").None? ==> r.None?
  {
    var name := Str(d, "name");
    var kind := StrOr(d, "type", "");
    var rating := NumOrTextOr(d, "rating");
    var hours := OptReal(d, "suggested_duration_hours");
    var description := StrOr(d, "description", "");
    var address := StrOr(d, "address", "");
    var location := OptLocation(d, "location");
    var images := StrListOr(d, "image_urls");
    var ticket := NumOrTextOr(d, "ticket_price");
    if name.Some? && kind.Some? && rating.Some? && hours.Some? && description.Some? && address.Some?
       && location.Some? && images.Some? && ticket.Some?
    then Some(Attraction(name.value, kind.value, rating.value, hours.value, description.value, address.value,
                         location.value, images.value, ticket.value))
    else None
  }

  function ParseHotel(d: Obj): (r: Option<Hotel>)
    ensures Str(d, "name").None? ==> r.None?
  {
    var name := Str(d, "name");
    var address := StrOr(d, "address", "");
    var location := OptLocation(d, "location");
    var price := NumOrTextOr(d, "price");
    var rating := NumOrTextOr(d, "rating");
    var distance := OptReal(d, "distance_to_main_attraction_km");
    if name.Some? && address.Some? && location.Some? && price.Some? && rating.Some? && distance.Some?
    then Some(Hotel(name.value, address.value, location.value, price.value, rating.value, distance.value))
    else None
  }

  function ParseDining(d: Obj): (r: Option<Dining>)
    ensures Str(d, "name").None? ==> r.None?
  {
    var name := Str(d, "name");
    var address := StrOr(d, "address", "");
    var location := OptLocation(d, "location");
    var cost := NumOrTextOr(d, "cost_per_person");
    var rating := NumOrTextOr(d, "rating");
    if name.Some? && address.Some? && location.Some? && cost.Some? && rating.Some?
    then Some(Dining(name.value, address.value, location.value, cost.value, rating.value))
    else None
  }

  function ParseWeather(d: Obj): (r: Option<Weather>)
    ensures r.Some? ==> Str(d, "date").Some? && Str(d, "day_weather").Some? && Str(d, "night_weather").Some?
                        && Str(d, "day_temp").Some? && Str(d, "night_temp").Some?
  {
    var date := Str(d, "date");
    var dayWeather := Str(d, "day_weather");
    var nightWeather := Str(d, "night_weather");
    var dayTemp := Str(d, "day_temp");
    var nightTemp := Str(d, "night_temp");
    var dayWind := OptStr(d, "day_wind");
    var nightWind := OptStr(d, "night_wind");
    if date.Some? && dayWeather.Some? && nightWeather.Some? && dayTemp.Some? && nightTemp.Some?
       && dayWind.Some? && nightWind.Some?
    then Some(Weather(date.value, dayWeather.value, nightWeather.value, dayTemp.value, nightTemp.value,
                      dayWind.value, nightWind.value))
    else None
  }

  // The records as JSON objects.

  function NumOrTextValue(x: NumOrText): Value {
    match x
    case Num(r) => VReal(r)
    case Text(s) => VStr(s)
  }

  function OptRealValue(x: Option<real>): Value {
    match x
    case None => VNone
    case Some(r) => VReal(r)
  }

  function OptStrValue(x: Option<string>): Value {
    match x
    case None => VNone
    case Some(s) => VStr(s)
  }

  function DumpLocation(l: Location): Obj {
    Dict(["lat", "lng"], map["lat" := VReal(l.lat), "lng" := VReal(l.lng)])
  }

  function OptLocationValue(x: Option<Location>): Value {
    match x
    case None => VNone
    case Some(l) => VDict(DumpLocation(l))
  }

  function DumpAttraction(a: Attraction): Obj {
    Dict(["name", "type", "rating", "suggested_duration_hours", "description", "address", "location", "image_urls", "ticket_price"],
      map["name" := VStr(a.name),
          "type" := VStr(a.kind),
          "rating" := NumOrTextValue(a.rating),
          "suggested_duration_hours" := OptRealValue(a.suggestedDurationHours),
          "description" := VStr(a.description),
          "address" := VStr(a.address),
          "location" := OptLocationValue(a.location),
          "image_urls" := VList(StrList(a.imageUrls)),
          "ticket_price" := NumOrTextValue(a.ticketPrice)])
  }

  function DumpHotel(h: Hotel): Obj {
    Dict(["name", "address", "location", "price", "rating", "distance_to_main_attraction_km"],
      map["name" := VStr(h.name),
          "address" := VStr(h.address),
          "location" := OptLocationValue(h.location),
          "price" := NumOrTextValue(h.price),
          "rating" := NumOrTextValue(h.rating),
          "distance_to_main_attraction_km" := OptRealValue(h.distanceToMainAttractionKm)])
  }

  function DumpDining(x: Dining): Obj {
    Dict(["name", "address", "location", "cost_per_person", "rating"],
      map["name" := VStr(x.name),
          "address" := VStr(x.address),
          "location" := OptLocationValue(x.location),
          "cost_per_person" := NumOrTextValue(x.costPerPerson),
          "rating" := NumOrTextValue(x.rating)])
  }

  function DumpWeather(w: Weather): Obj {
    Dict(["date", "day_weather", "night_weather", "day_temp", "night_temp", "day_wind", "night_wind"],
      map["date" := VStr(w.date),
          "day_weather" := VStr(w.dayWeather),
          "night_weather" := VStr(w.nightWeather),
          "day_temp" := VStr(w.dayTemp),
          "night_temp" := VStr(w.nightTemp),
          "day_wind" := OptStrValue(w.dayWind),
          "night_wind" := OptStrValue(w.nightWind)])
  }

  // Field round trips.

  lemma NumOrTextRoundTrip(d: Obj, k: string, x: NumOrText)
    requires k in d.m && d.m[k] == NumOrTextValue(x)
    ensures NumOrTextOr(d, k) == Some(x)
  {
  }

  lemma StrListRoundTrip(d: Obj, k: string, xs: seq<string>)
    requires k in d.m && d.m[k] == VList(StrList(xs))
    ensures StrListOr(d, k) == Some(xs)
  {
    assert Strs(StrList(xs)) == xs;
  }

  lemma LocationRoundTrip(l: Location)
    ensures ParseLocation(DumpLocation(l)) == Some(l)
  {
  }

  lemma OptLocationRoundTrip(d: Obj, k: string, x: Option<Location>)
    requires k in d.m && d.m[k] == OptLocationValue(x)
    ensures OptLocation(d, k) == Some(x)
  {
    if x.Some? {
      LocationRoundTrip(x.value);
    }
  }

  // Record round trips.

  lemma AttractionRoundTrip(a: Attraction)
    ensures ParseAttraction(DumpAttraction(a)) == Some(a)
  {
    var d := DumpAttraction(a);
    assert Str(d, "name") == Some(a.name);
    assert StrOr(d, "type", "") == Some(a.kind);
    NumOrTextRoundTrip(d, "rating", a.rating);
    OptRealRoundTrip(d, "suggested_duration_hours", a.suggestedDurationHours);
    assert StrOr(d, "description", "") == Some(a.description);
    assert StrOr(d, "address", "") == Some(a.address);
    OptLocationRoundTrip(d, "location", a.location);
    StrListRoundTrip(d, "image_urls", a.imageUrls);
    NumOrTextRoundTrip(d, "ticket_price", a.ticketPrice);
  }

  lemma OptRealRoundTrip(d: Obj, k: string, x: Option<real>)
    requires k in d.m && d.m[k] == OptRealValue(x)
    ensures OptReal(d, k) == Some(x)
  {
  }

  lemma HotelRoundTrip(h: Hotel)
    ensures ParseHotel(DumpHotel(h)) == Some(h)
  {
    var d := DumpHotel(h);
    NumOrTextRoundTrip(d, "price", h.price);
    NumOrTextRoundTrip(d, "rating", h.rating);
    OptLocationRoundTrip(d, "location", h.location);
  }

  lemma DiningRoundTrip(x: Dining)
    ensures ParseDining(DumpDining(x)) == Some(x)
  {
    var d := DumpDining(x);
    NumOrTextRoundTrip(d, "cost_per_person", x.costPerPerson);
    NumOrTextRoundTrip(d, "rating", x.rating);
    OptLocationRoundTrip(d, "location", x.location);
  }

  lemma WeatherRoundTrip(w: Weather)
    ensures ParseWeather(DumpWeather(w)) == Some(w)
  {
  }

  // Required fields and defaults.

  /** The name alone makes an attraction, with every other field at its default. */
  lemma AttractionNameOnly(name: string)
    ensures ParseAttraction(Empty().Put("name", VStr(name))) == Some(DefaultAttraction(name))
  {
  }

  lemma HotelNameOnly(name: string)
    ensures ParseHotel(Empty().Put("name", VStr(name))) == Some(DefaultHotel(name))
  {
  }

  lemma DiningNameOnly(name: string)
    ensures ParseDining(Empty().Put("name", VStr(name))) == Some(DefaultDining(name))
  {
  }

  /** Both coordinates are required. */
  lemma LocationNeedsBoth(lat: real)
    ensures ParseLocation(Empty().Put("lat", VReal(lat))).None?
  {
  }

  /** The five descriptive weather fields are required; the winds default to `None`. */
  lemma WeatherWindsOptional(date: string, dw: string, nw: string, dt: string, nt: string)
    ensures ParseWeather(Empty().Put("date", VStr(date)).Put("day_weather", VStr(dw)).Put("night_weather", VStr(nw))
                           .Put("day_temp", VStr(dt)).Put("night_temp", VStr(nt)))
            == Some(Weather(date, dw, nw, dt, nt, None, None))
  {
  }

  /** Without its night temperature a weather entry is refused. */
  lemma WeatherNeedsNightTemp(date: string, dw: string, nw: string, dt: string)
    ensures ParseWeather(Empty().Put("date", VStr(date)).Put("day_weather", VStr(dw)).Put("night_weather", VStr(nw))
                           .Put("day_temp", VStr(dt))).None?
  {
  }

  /** A number in the `float | str` rating is kept as a number. */
  lemma RatingNumberKept(name: string, n: int)
    ensures ParseAttraction(Empty().Put("name", VStr(name)).Put("rating", VInt(n))).value.rating == Num(n as real)
  {
  }

  /** A string in the `float | str` rating is kept as a string. */
  lemma RatingTextKept(name: string, s: string)
    ensures ParseAttraction(Empty().Put("name", VStr(name)).Put("rating", VStr(s))).value.rating == Text(s)
  {
  }
}
