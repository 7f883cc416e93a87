/**
 * The vector memory service: two FAISS indexes, one for user memories and
 * one for knowledge, each with a metadata dict keyed by the decimal text of
 * the vector's id. An index is modelled as its vector count plus a search
 * oracle; embeddings, the scores' arithmetic and persistence stay outside.
 */
module VectorMemory {
  import opened Wrappers
  import opened Strings
  import opened Dicts
  import opened Values
  import opened Sorting
  import Memory

  // Text builders

  /** `str(v)` inside an f-string; `render` stands for the forms the model does not spell out (floats, lists, dicts). */
  function Show(v: Value, render: Value -> string): string {
    match v
    case VStr(s) => s
    case VInt(i) => IntToString(i)
    case VBool(b) => if b then "True" else "False"
    case VNone => "None"
    case _ => render(v)
  }

  /** What `for x in v` visits: a list's items, a string's characters, a dict's keys; `None` when `v` is not iterable. */
  function Iterated(v: Value): (r: Option<seq<Value>>)
    ensures v.VList? ==> r == Some(v.items)
    ensures r.None? <==> !(v.VList? || v.VStr? || v.VDict?)
  {
    match v
    case VList(items) => Some(items)
    case VStr(s) => Some(seq(|s|, i requires 0 <= i < |s| => VStr([s[i]])))
    case VDict(d) => Some(StrList(d.keys))
    case _ => None
  }

  predicate AllStrings(xs: seq<Value>) {
    forall i :: 0 <= i < |xs| ==> xs[i].VStr?
  }

  /** `", ".join(v)`; `None` where Python raises a TypeError. */
  function JoinText(v: Value): Option<string> {
    match Iterated(v)
    case None => None
    case Some(xs) => if AllStrings(xs) then Some(Join(Strs(xs), ", ")) else None
  }

  /** The part `caption + str(d[key])`, present only when `key in d`. */
  function Field(d: Obj, key: string, caption: string, render: Value -> string): seq<string> {
    if key in d.m then [caption + Show(d.m[key], render)] else []
  }

  /** The part `caption + ", ".join(d[key])` when `key in d`; `None` when the join raises. */
  function JoinedField(d: Obj, key: string, caption: string): Option<seq<string>> {
    if key !in d.m then Some([])
    else match JoinText(d.m[key])
      case None => None
      case Some(t) => Some([caption + t])
  }

  /** `" ".join(text_parts)` of a builder that got through, or its exception. */
  function Spaced(parts: Option<seq<string>>): Option<string> {
    match parts
    case None => None
    case Some(ps) => Some(Join(ps, " "))
  }

  function PreferenceParts(ptype: string, d: Obj, render: Value -> string): Option<seq<string>> {
    var prefs := JoinedField(d, "preferences", "旅行偏好: ");
    var hotels := JoinedField(d, "hotel_preferences", "酒店偏好: ");
    if prefs.None? || hotels.None? then None
    else Some(["偏好类型: " + ptype] + Field(d, "destination", "目的地: ", render) + prefs.value
      + hotels.value + Field(d, "budget", "预算水平: ", render))
  }

  /** `_preference_to_text` */
  function PreferenceText(ptype: string, d: Obj, render: Value -> string): Option<string> {
    Spaced(PreferenceParts(ptype, d, render))
  }

  /** The time part, present only when both dates are. */
  function TripTime(d: Obj, render: Value -> string): seq<string> {
    if "start_date" in d.m && "end_date" in d.m then
      ["时间: " + Show(d.m["start_date"], render) + " 到 " + Show(d.m["end_date"], render)]
    else []
  }

  /** `attraction.get("name", "")` of each attraction; `None` when one is not a dict. */
  function NamesOf(atts: seq<Value>): Option<seq<Value>>
    decreases |atts|
  {
    if atts == [] then Some([])
    else match NamesOf(atts[..|atts| - 1])
      case None => None
      case Some(init) =>
        var a := atts[|atts| - 1];
        if !a.VDict? then None else Some(init + [a.d.GetOr("name", VStr(""))])
  }

  /** The names of every day's `day.get("attractions", [])`; `None` when a day is not a dict or its attractions are not iterable. */
  function AttractionNames(days: seq<Value>): Option<seq<Value>>
    decreases |days|
  {
    if days == [] then Some([])
    else match AttractionNames(days[..|days| - 1])
      case None => None
      case Some(init) =>
        var day := days[|days| - 1];
        if !day.VDict? then None
        else match Iterated(day.d.GetOr("attractions", VList([])))
          case None => None
          case Some(atts) =>
            match NamesOf(atts)
            case None => None
            case Some(names) => Some(init + names)
  }

  /** The attractions part, present only when some day names an attraction. */
  function TripAttractions(d: Obj): Option<seq<string>> {
    if "days" !in d.m then Some([])
    else match Iterated(d.m["days"])
      case None => None
      case Some(days) =>
        match AttractionNames(days)
        case None => None
        case Some(names) =>
          if names == [] then Some([])
          else if AllStrings(names) then Some(["景点: " + Join(Strs(names), ", ")])
          else None
  }

  function TripParts(d: Obj, render: Value -> string): Option<seq<string>> {
    var prefs := JoinedField(d, "preferences", "偏好: ");
    var sights := TripAttractions(d);
    if prefs.None? || sights.None? then None
    else Some(["旅行行程"] + Field(d, "destination", "目的地: ", render) + TripTime(d, render) + prefs.value
      + Field(d, "trip_title", "行程标题: ", render) + sights.value)
  }

  /** `_trip_to_text` */
  function TripText(d: Obj, render: Value -> string): Option<string> {
    Spaced(TripParts(d, render))
  }

  function FeedbackParts(d: Obj, render: Value -> string): seq<string> {
    ["用户反馈"] + Field(d, "rating", "评分: ", render) + Field(d, "comments", "评论: ", render)
      + Field(d, "modifications", "修改建议: ", render)
  }

  /** `_feedback_to_text`: it has no join of its own, so it never raises. */
  function FeedbackText(d: Obj, render: Value -> string): string {
    Join(FeedbackParts(d, render), " ")
  }

  function DestinationParts(destination: string, d: Obj, render: Value -> string): Option<seq<string>> {
    var highlights := JoinedField(d, "highlights", "特色: ");
    if highlights.None? then None
    else Some(["目的地: " + destination] + Field(d, "description", "描述: ", render) + highlights.value
      + Field(d, "best_season", "最佳季节: ", render) + Field(d, "culture", "文化背景: ", render))
  }

  /** `_destination_knowledge_to_text` */
  function DestinationText(destination: string, d: Obj, render: Value -> string): Option<string> {
    Spaced(DestinationParts(destination, d, render))
  }

  function ExperienceParts(etype: string, d: Obj, render: Value -> string): Option<seq<string>> {
    var tags := JoinedField(d, "tags", "标签: ");
    if tags.None? then None
    else Some(["旅行经验: " + etype] + Field(d, "title", "标题: ", render) + Field(d, "description", "描述: ", render)
      + tags.value + Field(d, "destination", "目的地: ", render))
  }

  /** `_experience_to_text` */
  function ExperienceText(etype: string, d: Obj, render: Value -> string): Option<string> {
    Spaced(ExperienceParts(etype, d, render))
  }

  /** A space-joined text starts with its first part. */
  lemma JoinStartsWith(ps: seq<string>, sep: string)
    requires ps != []
    ensures StartsWith(Join(ps, sep), ps[0])
  {
    if |ps| > 1 {
      assert Join(ps, sep) == ps[0] + (sep + Join(ps[1..], sep));
    }
  }

  /** Every part occurs in the joined text. */
  lemma {:induction false} JoinContains(ps: seq<string>, sep: string, x: string)
    requires x in ps
    ensures Contains(Join(ps, sep), x)
    decreases |ps|
  {
    if |ps| == 1 {
      ContainsInConcat("", x, "");
      assert "" + x + "" == x;
    } else if ps[0] == x {
      ContainsInConcat("", x, sep + Join(ps[1..], sep));
      assert "" + x + (sep + Join(ps[1..], sep)) == Join(ps, sep);
    } else {
      JoinContains(ps[1..], sep, x);
      var rest := Join(ps[1..], sep);
      var k := Find(rest, x).value;
      var s := Join(ps, sep);
      assert s == (ps[0] + sep) + rest;
      assert s[|ps[0] + sep| + k..|ps[0] + sep| + k + |x|] == rest[k..k + |x|];
      ContainsAt(s, x, |ps[0] + sep| + k);
    }
  }

  /** What a joined text shows of its parts: the first at its head and every other somewhere in it. */
  lemma SpacedShape(parts: seq<string>, x: string)
    requires parts != [] && x in parts
    ensures StartsWith(Join(parts, " "), parts[0])
    ensures Contains(Join(parts, " "), x)
  {
    JoinStartsWith(parts, " ");
    JoinContains(parts, " ", x);
  }

  /**
   * A preference text fails exactly when one of its two joined fields cannot
   * be joined; otherwise it starts with the preference type and shows every
   * present field.
   */
  lemma PreferenceTextShape(ptype: string, d: Obj, render: Value -> string)
    ensures PreferenceText(ptype, d, render).None? <==>
      ("preferences" in d.m && JoinText(d.m["preferences"]).None?) ||
      ("hotel_preferences" in d.m && JoinText(d.m["hotel_preferences"]).None?)
    ensures PreferenceText(ptype, d, render).Some? ==>
      var t := PreferenceText(ptype, d, render).value;
      && StartsWith(t, "偏好类型: " + ptype)
      && ("destination" in d.m ==> Contains(t, "目的地: " + Show(d.m["destination"], render)))
      && ("preferences" in d.m ==> Contains(t, "旅行偏好: " + JoinText(d.m["preferences"]).value))
      && ("hotel_preferences" in d.m ==> Contains(t, "酒店偏好: " + JoinText(d.m["hotel_preferences"]).value))
      && ("budget" in d.m ==> Contains(t, "预算水平: " + Show(d.m["budget"], render)))
    ensures "destination" !in d.m && "preferences" !in d.m && "hotel_preferences" !in d.m && "budget" !in d.m ==>
      PreferenceText(ptype, d, render) == Some("偏好类型: " + ptype)
  {
    var p := PreferenceParts(ptype, d, render);
    if p.Some? {
      var ps := p.value;
      JoinStartsWith(ps, " ");
      if "destination" in d.m { JoinContains(ps, " ", "目的地: " + Show(d.m["destination"], render)); }
      if "preferences" in d.m { JoinContains(ps, " ", "旅行偏好: " + JoinText(d.m["preferences"]).value); }
      if "hotel_preferences" in d.m { JoinContains(ps, " ", "酒店偏好: " + JoinText(d.m["hotel_preferences"]).value); }
      if "budget" in d.m { JoinContains(ps, " ", "预算水平: " + Show(d.m["budget"], render)); }
    }
  }

  /**
   * A trip text fails exactly when its preferences cannot be joined or its
   * days cannot be walked; otherwise it starts with the fixed header, shows
   * the time only when both dates are given, and shows the title.
   */
  lemma TripTextShape(d: Obj, render: Value -> string)
    ensures TripText(d, render).None? <==>
      ("preferences" in d.m && JoinText(d.m["preferences"]).None?) || TripAttractions(d).None?
    ensures TripText(d, render).Some? ==>
      var t := TripText(d, render).value;
      && StartsWith(t, "旅行行程")
      && ("destination" in d.m ==> Contains(t, "目的地: " + Show(d.m["destination"], render)))
      && ("start_date" in d.m && "end_date" in d.m ==>
           Contains(t, "时间: " + Show(d.m["start_date"], render) + " 到 " + Show(d.m["end_date"], render)))
      && ("trip_title" in d.m ==> Contains(t, "行程标题: " + Show(d.m["trip_title"], render)))
    ensures ("destination" !in d.m && "start_date" !in d.m && "preferences" !in d.m && "trip_title" !in d.m
      && "days" !in d.m) ==> TripText(d, render) == Some("旅行行程")
  {
    var p := TripParts(d, render);
    if p.Some? {
      var ps := p.value;
      JoinStartsWith(ps, " ");
      if "destination" in d.m { JoinContains(ps, " ", "目的地: " + Show(d.m["destination"], render)); }
      if "start_date" in d.m && "end_date" in d.m {
        JoinContains(ps, " ", "时间: " + Show(d.m["start_date"], render) + " 到 " + Show(d.m["end_date"], render));
      }
      if "trip_title" in d.m { JoinContains(ps, " ", "行程标题: " + Show(d.m["trip_title"], render)); }
    }
  }

  /** `{"name": n}` */
  function Named(n: string): Value {
    VDict(Dict(["name"], map["name" := VStr(n)]))
  }

  /** `{"attractions": atts}` */
  function DayOf(atts: seq<Value>): Value {
    VDict(Dict(["attractions"], map["attractions" := VList(atts)]))
  }

  lemma NamesOfNamed(a: string, b: string)
    ensures NamesOf([Named(a), Named(b)]) == Some([VStr(a), VStr(b)])
  {
    var atts := [Named(a), Named(b)];
    assert Named(a).VDict? && Named(a).d.GetOr("name", VStr("")) == VStr(a);
    assert Named(b).VDict? && Named(b).d.GetOr("name", VStr("")) == VStr(b);
    assert [Named(a)][..0] == [];
    assert NamesOf([]) == Some([]);
    var n1 := NamesOf([Named(a)]);
    assert n1.Some? && n1.value == [] + [VStr(a)];
    assert atts[..|atts| - 1] == [Named(a)];
    var n2 := NamesOf(atts);
    assert n2.Some? && n2.value == n1.value + [VStr(b)];
    assert n2.value == [VStr(a), VStr(b)];
  }

  lemma OneDayNames(atts: seq<Value>, names: seq<Value>)
    requires NamesOf(atts) == Some(names)
    ensures AttractionNames([DayOf(atts)]) == Some(names)
  {
    assert [DayOf(atts)][..0] == [];
    assert AttractionNames([]) == Some([]);
    assert DayOf(atts).VDict? && DayOf(atts).d.GetOr("attractions", VList([])) == VList(atts);
    assert Iterated(DayOf(atts).d.GetOr("attractions", VList([]))) == Some(atts);
    var n := AttractionNames([DayOf(atts)]);
    assert n.Some? && n.value == [] + names;
    assert [] + names == names;
  }

  /** One day visiting two named attractions gives the names in visiting order. */
  lemma TripAttractionsExample(d: Obj, a: string, b: string)
    requires "days" in d.m && d.m["days"] == VList([DayOf([Named(a), Named(b)])])
    ensures TripAttractions(d) == Some(["景点: " + a + ", " + b])
  {
    NamesOfNamed(a, b);
    OneDayNames([Named(a), Named(b)], [VStr(a), VStr(b)]);
    var names := [VStr(a), VStr(b)];
    assert Iterated(d.m["days"]) == Some([DayOf([Named(a), Named(b)])]);
    assert AllStrings(names);
    assert Strs(names) == [a, b];
    assert TripAttractions(d) == Some(["景点: " + Join([a, b], ", ")]);
    assert Join([a, b], ", ") == a + ", " + b;
    assert "景点: " + (a + ", " + b) == "景点: " + a + ", " + b;
  }

  /** The feedback text lists rating, comments and modifications in that order, whatever the dict's own order. */
  lemma FeedbackTextOrder(d: Obj, render: Value -> string)
    requires "rating" in d.m && "comments" in d.m && "modifications" in d.m
    ensures FeedbackText(d, render) == "用户反馈" + " " + ("评分: " + Show(d.m["rating"], render))
      + " " + ("评论: " + Show(d.m["comments"], render)) + " " + ("修改建议: " + Show(d.m["modifications"], render))
  {
    var r := "评分: " + Show(d.m["rating"], render);
    var c := "评论: " + Show(d.m["comments"], render);
    var m := "修改建议: " + Show(d.m["modifications"], render);
    var h := "用户反馈";
    assert FeedbackParts(d, render) == [h, r, c, m];
    assert [h, r, c, m][1..] == [r, c, m] && [r, c, m][1..] == [c, m] && [c, m][1..] == [m];
    var x := c + " " + m;
    var p := h + " " + r + " ";
    assert Join([c, m], " ") == x;
    assert Join([r, c, m], " ") == r + " " + x;
    assert Join([h, r, c, m], " ") == h + " " + (r + " " + x);
    Associative(h + " ", r + " ", x);
    Associative(h + " ", r, " ");
    Associative(p, c + " ", m);
    Associative(p, c, " ");
  }

  /** A feedback text starts with its header, shows every present field, and is the header alone for an empty dict. */
  lemma FeedbackTextShape(d: Obj, render: Value -> string)
    ensures StartsWith(FeedbackText(d, render), "用户反馈")
    ensures "rating" in d.m ==> Contains(FeedbackText(d, render), "评分: " + Show(d.m["rating"], render))
    ensures "comments" in d.m ==> Contains(FeedbackText(d, render), "评论: " + Show(d.m["comments"], render))
    ensures "modifications" in d.m ==> Contains(FeedbackText(d, render), "修改建议: " + Show(d.m["modifications"], render))
    ensures "rating" !in d.m && "comments" !in d.m && "modifications" !in d.m ==> FeedbackText(d, render) == "用户反馈"
  {
    var ps := FeedbackParts(d, render);
    JoinStartsWith(ps, " ");
    if "rating" in d.m { JoinContains(ps, " ", "评分: " + Show(d.m["rating"], render)); }
    if "comments" in d.m { JoinContains(ps, " ", "评论: " + Show(d.m["comments"], render)); }
    if "modifications" in d.m { JoinContains(ps, " ", "修改建议: " + Show(d.m["modifications"], render)); }
  }

  /** A destination text fails exactly when its highlights cannot be joined; otherwise it starts with the destination and shows every present field. */
  lemma DestinationTextShape(destination: string, d: Obj, render: Value -> string)
    ensures DestinationText(destination, d, render).None? <==> "highlights" in d.m && JoinText(d.m["highlights"]).None?
    ensures DestinationText(destination, d, render).Some? ==>
      var t := DestinationText(destination, d, render).value;
      && StartsWith(t, "目的地: " + destination)
      && ("description" in d.m ==> Contains(t, "描述: " + Show(d.m["description"], render)))
      && ("highlights" in d.m ==> Contains(t, "特色: " + JoinText(d.m["highlights"]).value))
      && ("best_season" in d.m ==> Contains(t, "最佳季节: " + Show(d.m["best_season"], render)))
      && ("culture" in d.m ==> Contains(t, "文化背景: " + Show(d.m["culture"], render)))
  {
    var p := DestinationParts(destination, d, render);
    if p.Some? {
      var ps := p.value;
      JoinStartsWith(ps, " ");
      if "description" in d.m { JoinContains(ps, " ", "描述: " + Show(d.m["description"], render)); }
      if "highlights" in d.m { JoinContains(ps, " ", "特色: " + JoinText(d.m["highlights"]).value); }
      if "best_season" in d.m { JoinContains(ps, " ", "最佳季节: " + Show(d.m["best_season"], render)); }
      if "culture" in d.m { JoinContains(ps, " ", "文化背景: " + Show(d.m["culture"], render)); }
    }
  }

  /** An experience text fails exactly when its tags cannot be joined; otherwise it starts with the type and shows every present field. */
  lemma ExperienceTextShape(etype: string, d: Obj, render: Value -> string)
    ensures ExperienceText(etype, d, render).None? <==> "tags" in d.m && JoinText(d.m["tags"]).None?
    ensures ExperienceText(etype, d, render).Some? ==>
      var t := ExperienceText(etype, d, render).value;
      && StartsWith(t, "旅行经验: " + etype)
      && ("title" in d.m ==> Contains(t, "标题: " + Show(d.m["title"], render)))
      && ("description" in d.m ==> Contains(t, "描述: " + Show(d.m["description"], render)))
      && ("tags" in d.m ==> Contains(t, "标签: " + JoinText(d.m["tags"]).value))
      && ("destination" in d.m ==> Contains(t, "目的地: " + Show(d.m["destination"], render)))
  {
    var p := ExperienceParts(etype, d, render);
    if p.Some? {
      var ps := p.value;
      JoinStartsWith(ps, " ");
      if "title" in d.m { JoinContains(ps, " ", "标题: " + Show(d.m["title"], render)); }
      if "description" in d.m { JoinContains(ps, " ", "描述: " + Show(d.m["description"], render)); }
      if "tags" in d.m { JoinContains(ps, " ", "标签: " + JoinText(d.m["tags"]).value); }
      if "destination" in d.m { JoinContains(ps, " ", "目的地: " + Show(d.m["destination"], render)); }
    }
  }

  /** Joining a string joins its characters; joining a list of strings joins them; a number cannot be joined. */
  lemma JoinTextCases(s: string, xs: seq<string>, i: int)
    ensures JoinText(VStr("ab")) == Some("a, b")
    ensures JoinText(VList(StrList(xs))) == Some(Join(xs, ", "))
    ensures JoinText(VInt(i)) == None
    ensures JoinText(VList([VInt(i)])) == None
  {
    var cs := seq(2, k requires 0 <= k < 2 => VStr(["ab"[k]]));
    assert cs == [VStr("a"), VStr("b")];
    assert Iterated(VStr("ab")) == Some(cs);
    assert AllStrings(cs);
    assert Strs(cs) == ["a", "b"];
    assert Join(["a", "b"], ", ") == "a" + ", " + "b" == "a, b";
    StrsStrList(xs);
    assert Iterated(VList([VInt(i)])) == Some([VInt(i)]);
    assert [VInt(i)][0] == VInt(i);
  }

  lemma {:induction false} StrsStrList(xs: seq<string>)
    ensures Strs(StrList(xs)) == xs
    decreases |xs|
  {
    if xs != [] {
      StrsStrList(xs[1..]);
      assert StrList(xs)[1..] == StrList(xs[1..]);
    }
  }

  // Metadata entries

  function PreferenceEntry(userId: string, ptype: string, data: Obj, text: string, now: string): Obj {
    Dict(["user_id", "type", "preference_type", "data", "text_representation", "timestamp"],
      map["user_id" := VStr(userId), "type" := VStr("preference"), "preference_type" := VStr(ptype),
        "data" := VDict(data), "text_representation" := VStr(text), "timestamp" := VStr(now)])
  }

  function TripEntry(userId: string, data: Obj, text: string, now: string): Obj {
    Dict(["user_id", "type", "data", "text_representation", "timestamp"],
      map["user_id" := VStr(userId), "type" := VStr("trip"), "data" := VDict(data),
        "text_representation" := VStr(text), "timestamp" := VStr(now)])
  }

  function FeedbackEntry(userId: string, tripId: string, data: Obj, text: string, now: string): Obj {
    Dict(["user_id", "type", "trip_id", "data", "text_representation", "timestamp"],
      map["user_id" := VStr(userId), "type" := VStr("feedback"), "trip_id" := VStr(tripId),
        "data" := VDict(data), "text_representation" := VStr(text), "timestamp" := VStr(now)])
  }

  function DestinationEntry(destination: string, data: Obj, text: string, now: string): Obj {
    Dict(["type", "destination", "data", "text_representation", "timestamp"],
      map["type" := VStr("destination"), "destination" := VStr(destination), "data" := VDict(data),
        "text_representation" := VStr(text), "timestamp" := VStr(now)])
  }

  function ExperienceEntry(etype: string, data: Obj, text: string, now: string): Obj {
    Dict(["type", "experience_type", "data", "text_representation", "timestamp"],
      map["type" := VStr("experience"), "experience_type" := VStr(etype), "data" := VDict(data),
        "text_representation" := VStr(text), "timestamp" := VStr(now)])
  }

  // Filtering

  /** Who a retrieval keeps: the user for user memories (`None` for knowledge) and the `memory_types` / `knowledge_types` list. */
  datatype Filter = Filter(user: Option<string>, types: Option<seq<string>>)

  /** `metadata.get("user_id") == user_id` and `not types or metadata.get("type") in types` */
  predicate Keeps(f: Filter, o: Obj) {
    && (f.user.Some? ==> "user_id" in o.m && o.m["user_id"] == VStr(f.user.value))
    && (f.types.None? || f.types.value == [] || ("type" in o.m && o.m["type"].VStr? && o.m["type"].s in f.types.value))
  }

  /** Without a type list an entry of its own user is always kept; with one, exactly when its type is listed. */
  lemma EntriesFound(userId: string, other: string, types: Option<seq<string>>, data: Obj, s: string, t: string, now: string)
    requires other != userId
    ensures var listed := (k: string) => types.None? || types.value == [] || k in types.value;
      && (Keeps(Filter(Some(userId), types), PreferenceEntry(userId, s, data, t, now)) <==> listed("preference"))
      && (Keeps(Filter(Some(userId), types), TripEntry(userId, data, t, now)) <==> listed("trip"))
      && (Keeps(Filter(Some(userId), types), FeedbackEntry(userId, s, data, t, now)) <==> listed("feedback"))
      && !Keeps(Filter(Some(other), types), PreferenceEntry(userId, s, data, t, now))
      && (Keeps(Filter(None, types), DestinationEntry(s, data, t, now)) <==> listed("destination"))
      && (Keeps(Filter(None, types), ExperienceEntry(s, data, t, now)) <==> listed("experience"))
  {
  }

  /** `list.filter` over the metadata values, in order. */
  function Matching(xs: seq<Obj>, f: Filter): (r: seq<Obj>)
    ensures forall i :: 0 <= i < |r| ==> Keeps(f, r[i])
    ensures multiset(r) <= multiset(xs)
    ensures forall x :: x in xs && Keeps(f, x) ==> x in r
    decreases |xs|
  {
    if xs == [] then []
    else
      var init := xs[..|xs| - 1];
      var x := xs[|xs| - 1];
      assert xs == init + [x];
      if Keeps(f, x) then Matching(init, f) + [x] else Matching(init, f)
  }

  /** `_get_recent_user_memories`: the matching entries, newest timestamp first, cut at `limit`. */
  function Recent(meta: Dict<string, Obj>, f: Filter, limit: int): seq<Obj>
    requires meta.Valid()
  {
    SliceTo(SortDesc(Matching(meta.Values(), f), Memory.TimestampOf, Memory.StrLessFn()), limit)
  }

  /**
   * The recent memories all pass the filter, are newest first, number at
   * most `limit`, come from the store, and are all the matching entries when
   * `limit` is large enough.
   */
  lemma RecentSpec(meta: Dict<string, Obj>, f: Filter, limit: int)
    requires meta.Valid()
    ensures var r := Recent(meta, f, limit);
      && (limit >= 0 ==> |r| <= limit)
      && (forall i :: 0 <= i < |r| ==> Keeps(f, r[i]))
      && (forall i, j :: 0 <= i < j < |r| ==> !StrLess(Memory.TimestampOf(r[i]), Memory.TimestampOf(r[j])))
      && multiset(r) <= multiset(meta.Values())
      && (limit >= |Matching(meta.Values(), f)| ==> multiset(r) == multiset(Matching(meta.Values(), f)))
  {
    var all := Matching(meta.Values(), f);
    var sorted := SortDesc(all, Memory.TimestampOf, Memory.StrLessFn());
    var r := Recent(meta, f, limit);
    RecentPrefix(sorted, limit);
    SortDescPerm(all, Memory.TimestampOf, Memory.StrLessFn());
    PrefixMultiset(sorted, |r|);
    RecentKeeps(all, r, f);
    RecentOrdered(all, |r|);
    if limit >= |all| {
      assert r == sorted;
    }
  }

  lemma RecentPrefix(sorted: seq<Obj>, limit: int)
    ensures var r := SliceTo(sorted, limit);
      && |r| <= |sorted| && r == sorted[..|r|]
      && (limit >= 0 ==> |r| <= limit)
      && (limit >= |sorted| ==> r == sorted)
  {
  }

  lemma PrefixMultiset<T>(s: seq<T>, k: nat)
    requires k <= |s|
    ensures multiset(s[..k]) <= multiset(s)
  {
    assert s == s[..k] + s[k..];
  }

  lemma RecentKeeps(all: seq<Obj>, r: seq<Obj>, f: Filter)
    requires forall i :: 0 <= i < |all| ==> Keeps(f, all[i])
    requires multiset(r) <= multiset(all)
    ensures forall i :: 0 <= i < |r| ==> Keeps(f, r[i])
  {
    forall i | 0 <= i < |r| ensures Keeps(f, r[i]) {
      assert r[i] in multiset(all);
    }
  }

  /** A prefix of the newest-first order is itself newest first. */
  lemma RecentOrdered(all: seq<Obj>, k: nat)
    requires k <= |all|
    ensures var r := SortDesc(all, Memory.TimestampOf, Memory.StrLessFn())[..k];
      forall i, j :: 0 <= i < j < |r| ==> !StrLess(Memory.TimestampOf(r[i]), Memory.TimestampOf(r[j]))
  {
    var sorted := SortDesc(all, Memory.TimestampOf, Memory.StrLessFn());
    StrLessStrictTotal();
    SortDescSorted(all, Memory.TimestampOf, Memory.StrLessFn());
    forall i, j | 0 <= i < j < k ensures !StrLess(Memory.TimestampOf(sorted[i]), Memory.TimestampOf(sorted[j])) {
      assert !Memory.StrLessFn()(Memory.TimestampOf(sorted[i]), Memory.TimestampOf(sorted[j]));
    }
  }

  // Post-search scan

  /** One search result: a vector id (-1 for an empty slot) and its score. */
  datatype Hit = Hit(id: int, distance: real)

  /** `index.search(query_vector, k)` at the moment of the call; `None` when it raises. */
  type Search = (string, int) -> Option<seq<Hit>>

  /** `min(index.ntotal, limit * 2)` */
  function SearchWidth(count: nat, limit: int): int {
    if count < limit * 2 then count else limit * 2
  }

  /** `metadata["similarity_score"] = float(distance)` */
  function Scored(o: Obj, d: real): Obj {
    o.Put("similarity_score", VReal(d))
  }

  /** The hit survives the loop's `continue`s: a real id whose metadata exists, is non-empty, and passes the filter. */
  predicate Admits(meta: Dict<string, Obj>, h: Hit, f: Filter) {
    h.id != -1 && IntToString(h.id) in meta.m && TruthyObj(meta.m[IntToString(h.id)]) && Keeps(f, meta.m[IntToString(h.id)])
  }

  /**
   * The loop over the hits from where it stands: the results gathered so far
   * and the metadata so far. A kept entry gets its score written back into
   * the store, and the loop stops once it holds `limit` results.
   */
  function Scan(meta: Dict<string, Obj>, hits: seq<Hit>, f: Filter, limit: int, acc: seq<Obj>): (seq<Obj>, Dict<string, Obj>)
    decreases |hits|
  {
    if hits == [] then (acc, meta)
    else if !Admits(meta, hits[0], f) then Scan(meta, hits[1..], f, limit, acc)
    else
      var key := IntToString(hits[0].id);
      var scored := Scored(meta.m[key], hits[0].distance);
      if |acc| + 1 >= limit then (acc + [scored], meta.Put(key, scored))
      else Scan(meta.Put(key, scored), hits[1..], f, limit, acc + [scored])
  }

  /** Every admitted hit's entry with its score, in ranking order, as if nothing were written back. */
  function Passing(meta: Dict<string, Obj>, hits: seq<Hit>, f: Filter): (r: seq<Obj>)
    ensures |r| <= |hits|
    ensures forall i :: 0 <= i < |r| ==> Keeps(f, r[i]) && "similarity_score" in r[i].m && r[i].m["similarity_score"].VReal?
    decreases |hits|
  {
    if hits == [] then []
    else
      (if Admits(meta, hits[0], f) then [Scored(meta.m[IntToString(hits[0].id)], hits[0].distance)] else [])
      + Passing(meta, hits[1..], f)
  }

  /** FAISS never returns an id twice; only the empty slot -1 repeats. */
  predicate RealIdsDistinct(hits: seq<Hit>) {
    forall i, j :: 0 <= i < j < |hits| && hits[i].id == hits[j].id ==> hits[i].id == -1
  }

  /** An entry with its score rewritten, whatever score it had. */
  predicate Rescored(o: Obj, p: Obj) {
    "similarity_score" in p.m && p.m["similarity_score"].VReal? && p == Scored(o, p.m["similarity_score"].r)
  }

  lemma ScoredTwice(o: Obj, d: real, e: real)
    ensures Scored(Scored(o, d), e) == Scored(o, e)
  {
    assert Scored(Scored(o, d), e).m == Scored(o, e).m;
  }

  lemma IntToStringInjective(a: int, b: int)
    requires IntToString(a) == IntToString(b)
    ensures a == b
  {
    if a >= 0 && b >= 0 {
      NatToStringInjective(a, b);
    } else if a < 0 && b < 0 {
      assert IntToString(a)[1..] == NatToString(-a);
      assert IntToString(b)[1..] == NatToString(-b);
      NatToStringInjective(-a, -b);
    }
  }

  /** Writing under a key that no later real hit names leaves the later admissions unchanged. */
  lemma {:induction false} PassingFrame(meta: Dict<string, Obj>, hits: seq<Hit>, f: Filter, key: string, x: Obj)
    requires key in meta.m
    requires forall j :: 0 <= j < |hits| && hits[j].id != -1 ==> IntToString(hits[j].id) != key
    ensures Passing(meta.Put(key, x), hits, f) == Passing(meta, hits, f)
    decreases |hits|
  {
    if hits != [] {
      PassingFrame(meta, hits[1..], f, key, x);
    }
  }

  /** The first hit's key is named by no later real hit. */
  lemma FirstKeyFresh(hits: seq<Hit>)
    requires hits != [] && hits[0].id != -1 && RealIdsDistinct(hits)
    ensures forall j :: 0 <= j < |hits[1..]| && hits[1..][j].id != -1 ==> IntToString(hits[1..][j].id) != IntToString(hits[0].id)
  {
    forall j | 0 <= j < |hits[1..]| && hits[1..][j].id != -1
      ensures IntToString(hits[1..][j].id) != IntToString(hits[0].id)
    {
      if IntToString(hits[1..][j].id) == IntToString(hits[0].id) {
        IntToStringInjective(hits[1..][j].id, hits[0].id);
      }
    }
  }

  /** `n` itself when positive, else 1: the loop always takes a first kept hit before it checks the limit. */
  function Cap(n: int): int {
    if n >= 1 then n else 1
  }

  /**
   * The results are the admitted hits in ranking order, each with its score,
   * cut at `limit` — but at least one when `limit` is 0 or negative, since the
   * check comes after the append.
   */
  lemma {:induction false} ScanTakes(meta: Dict<string, Obj>, hits: seq<Hit>, f: Filter, limit: int, acc: seq<Obj>)
    requires RealIdsDistinct(hits)
    requires acc == [] || |acc| < limit
    ensures Scan(meta, hits, f, limit, acc).0 == acc + SliceTo(Passing(meta, hits, f), Cap(limit - |acc|))
    decreases |hits|, 1
  {
    if hits != [] {
      if !Admits(meta, hits[0], f) {
        ScanTakesSkip(meta, hits, f, limit, acc);
      } else if |acc| + 1 >= limit {
        ScanTakesLast(meta, hits, f, limit, acc);
      } else {
        ScanTakesKeep(meta, hits, f, limit, acc);
      }
    }
  }

  lemma {:induction false} ScanTakesSkip(meta: Dict<string, Obj>, hits: seq<Hit>, f: Filter, limit: int, acc: seq<Obj>)
    requires hits != [] && !Admits(meta, hits[0], f)
    requires RealIdsDistinct(hits)
    requires acc == [] || |acc| < limit
    ensures Scan(meta, hits, f, limit, acc).0 == acc + SliceTo(Passing(meta, hits, f), Cap(limit - |acc|))
    decreases |hits|, 0
  {
    var rest := hits[1..];
    RestDistinct(hits);
    ScanTakes(meta, rest, f, limit, acc);
    assert Scan(meta, hits, f, limit, acc) == Scan(meta, rest, f, limit, acc);
    assert Passing(meta, hits, f) == Passing(meta, rest, f);
  }

  lemma {:induction false} ScanTakesKeep(meta: Dict<string, Obj>, hits: seq<Hit>, f: Filter, limit: int, acc: seq<Obj>)
    requires hits != [] && Admits(meta, hits[0], f) && |acc| + 1 < limit
    requires RealIdsDistinct(hits)
    ensures Scan(meta, hits, f, limit, acc).0 == acc + SliceTo(Passing(meta, hits, f), Cap(limit - |acc|))
    decreases |hits|, 0
  {
    var rest := hits[1..];
    RestDistinct(hits);
    var key := IntToString(hits[0].id);
    var scored := Scored(meta.m[key], hits[0].distance);
    FirstKeyFresh(hits);
    PassingFrame(meta, rest, f, key, scored);
    ScanTakes(meta.Put(key, scored), rest, f, limit, acc + [scored]);
    SliceCons(scored, Passing(meta, rest, f), limit - |acc|);
    assert Passing(meta, hits, f) == [scored] + Passing(meta, rest, f);
  }

  /** The step that reaches the limit returns what it holds plus the one kept hit. */
  lemma ScanTakesLast(meta: Dict<string, Obj>, hits: seq<Hit>, f: Filter, limit: int, acc: seq<Obj>)
    requires hits != [] && Admits(meta, hits[0], f) && |acc| + 1 >= limit
    requires acc == [] || |acc| < limit
    ensures Scan(meta, hits, f, limit, acc).0 == acc + SliceTo(Passing(meta, hits, f), Cap(limit - |acc|))
  {
    var scored := Scored(meta.m[IntToString(hits[0].id)], hits[0].distance);
    var p := Passing(meta, hits[1..], f);
    assert Passing(meta, hits, f) == [scored] + p;
    assert Cap(limit - |acc|) == 1;
    assert SliceTo([scored] + p, 1) == [scored];
  }

  lemma SliceCons<T>(x: T, p: seq<T>, n: int)
    requires n >= 1
    ensures SliceTo([x] + p, n) == [x] + SliceTo(p, n - 1)
  {
  }

  lemma RestDistinct(hits: seq<Hit>)
    requires hits != [] && RealIdsDistinct(hits)
    ensures RealIdsDistinct(hits[1..])
  {
    var rest := hits[1..];
    forall i, j | 0 <= i < j < |rest| && rest[i].id == rest[j].id ensures rest[i].id == -1 {
      assert hits[i + 1].id == hits[j + 1].id;
    }
  }

  /** With fewer kept hits than `limit`, every one of them is returned. */
  lemma ScanReturnsAllPassing(meta: Dict<string, Obj>, hits: seq<Hit>, f: Filter, limit: int)
    requires RealIdsDistinct(hits) && |Passing(meta, hits, f)| <= limit
    ensures Scan(meta, hits, f, limit, []).0 == Passing(meta, hits, f)
  {
    ScanTakes(meta, hits, f, limit, []);
  }

  /** Results never exceed a positive `limit`, and each passes the filter and carries its score. */
  lemma {:induction false} ScanBounded(meta: Dict<string, Obj>, hits: seq<Hit>, f: Filter, limit: int, acc: seq<Obj>)
    requires limit >= 1 ==> |acc| < limit
    ensures var r := Scan(meta, hits, f, limit, acc).0;
      && |acc| <= |r| && r[..|acc|] == acc
      && (limit >= 1 ==> |r| <= limit)
      && (limit < 1 ==> |r| <= |acc| + 1)
      && forall i :: |acc| <= i < |r| ==> Keeps(f, r[i]) && "similarity_score" in r[i].m
    decreases |hits|
  {
    if hits != [] {
      if !Admits(meta, hits[0], f) {
        ScanBounded(meta, hits[1..], f, limit, acc);
      } else {
        var key := IntToString(hits[0].id);
        var scored := Scored(meta.m[key], hits[0].distance);
        if |acc| + 1 < limit {
          ScanBounded(meta.Put(key, scored), hits[1..], f, limit, acc + [scored]);
          var r := Scan(meta, hits, f, limit, acc).0;
          assert r[..|acc| + 1][..|acc|] == r[..|acc|];
        }
      }
    }
  }

  /**
   * The scan writes back only scores: the keys stay as they were, and every
   * entry is either untouched or its old self with a new score.
   */
  lemma {:induction false} ScanRescores(meta: Dict<string, Obj>, hits: seq<Hit>, f: Filter, limit: int, acc: seq<Obj>)
    ensures var m2 := Scan(meta, hits, f, limit, acc).1;
      && m2.keys == meta.keys && m2.m.Keys == meta.m.Keys
      && forall k :: k in meta.m ==> m2.m[k] == meta.m[k] || Rescored(meta.m[k], m2.m[k])
    decreases |hits|
  {
    if hits != [] {
      if !Admits(meta, hits[0], f) {
        ScanRescores(meta, hits[1..], f, limit, acc);
      } else {
        var key := IntToString(hits[0].id);
        var scored := Scored(meta.m[key], hits[0].distance);
        var meta' := meta.Put(key, scored);
        assert Rescored(meta.m[key], scored);
        if |acc| + 1 < limit {
          ScanRescores(meta', hits[1..], f, limit, acc + [scored]);
          var m2 := Scan(meta, hits, f, limit, acc).1;
          if m2.m[key] != scored {
            ScoredTwice(meta.m[key], hits[0].distance, m2.m[key].m["similarity_score"].r);
          }
        }
      }
    }
  }

  /** An entry whose key no later real hit names keeps its value through the scan. */
  lemma {:induction false} ScanFrame(meta: Dict<string, Obj>, hits: seq<Hit>, f: Filter, limit: int, acc: seq<Obj>, key: string)
    requires forall j :: 0 <= j < |hits| && hits[j].id != -1 ==> IntToString(hits[j].id) != key
    ensures key in meta.m ==> key in Scan(meta, hits, f, limit, acc).1.m && Scan(meta, hits, f, limit, acc).1.m[key] == meta.m[key]
    decreases |hits|
  {
    if hits != [] {
      if !Admits(meta, hits[0], f) {
        ScanFrame(meta, hits[1..], f, limit, acc, key);
      } else if |acc| + 1 < limit {
        var k0 := IntToString(hits[0].id);
        ScanFrame(meta.Put(k0, Scored(meta.m[k0], hits[0].distance)), hits[1..], f, limit, acc + [Scored(meta.m[k0], hits[0].distance)], key);
      }
    }
  }

  /** `o` is one of the store's entries. */
  ghost predicate StoredIn(store: Dict<string, Obj>, o: Obj) {
    exists k :: k in store.m && store.m[k] == o
  }

  /** Each returned entry is the one left in the store: a read mutates the stored metadata. */
  lemma {:induction false} ScanResultsStored(meta: Dict<string, Obj>, hits: seq<Hit>, f: Filter, limit: int, acc: seq<Obj>)
    requires RealIdsDistinct(hits)
    ensures var s := Scan(meta, hits, f, limit, acc);
      forall i :: |acc| <= i < |s.0| ==> StoredIn(s.1, s.0[i])
    decreases |hits|
  {
    if hits != [] {
      var rest := hits[1..];
      RestDistinct(hits);
      if !Admits(meta, hits[0], f) {
        ScanResultsStored(meta, rest, f, limit, acc);
        var s := Scan(meta, hits, f, limit, acc);
        var s' := Scan(meta, rest, f, limit, acc);
        assert s == s';
        assert var t := Scan(meta, rest, f, limit, acc); forall i :: |acc| <= i < |t.0| ==> StoredIn(t.1, t.0[i]);

      } else {
        var key := IntToString(hits[0].id);
        var scored := Scored(meta.m[key], hits[0].distance);
        var s := Scan(meta, hits, f, limit, acc);
        if |acc| + 1 >= limit {
          assert key in s.1.m && s.1.m[key] == s.0[|acc|];
          assert StoredIn(s.1, s.0[|acc|]);
        } else {
          var meta' := meta.Put(key, scored);
          ScanResultsStored(meta', rest, f, limit, acc + [scored]);
          FirstKeyFresh(hits);
          ScanFrame(meta', rest, f, limit, acc + [scored], key);
          ScanBounded(meta', rest, f, limit, acc + [scored]);
          assert s == Scan(meta', rest, f, limit, acc + [scored]);
          assert s.0[|acc|] == scored && key in s.1.m && s.1.m[key] == scored;
          assert StoredIn(s.1, s.0[|acc|]);
        }
      }
    }
  }

  /** The loop of `retrieve_user_memories` and `retrieve_knowledge_memories` over one search result. */
  method ScanHits(meta: Dict<string, Obj>, hits: seq<Hit>, f: Filter, limit: int) returns (results: seq<Obj>, store: Dict<string, Obj>)
    ensures (results, store) == Scan(meta, hits, f, limit, [])
  {
    results := [];
    store := meta;
    var i := 0;
    while i < |hits|
      invariant 0 <= i <= |hits|
      invariant Scan(meta, hits, f, limit, []) == Scan(store, hits[i..], f, limit, results)
    {
      assert hits[i..][1..] == hits[i + 1..];
      var h := hits[i];
      var key := IntToString(h.id);
      if h.id != -1 && key in store.m && TruthyObj(store.m[key]) && Keeps(f, store.m[key]) {
        var scored := Scored(store.m[key], h.distance);
        store := store.Put(key, scored);
        results := results + [scored];
        if |results| >= limit {
          return;
        }
      }
      i := i + 1;
    }
    assert hits[i..] == [];
  }

  // Retrieval

  /** `retrieve_user_memories`: its result and the user metadata afterwards. */
  function UserRetrieval(meta: Dict<string, Obj>, count: nat, userId: string, query: string, limit: int,
                         types: Option<seq<string>>, search: Search): (seq<Obj>, Dict<string, Obj>)
    requires meta.Valid()
  {
    if query == "" then (Recent(meta, Filter(Some(userId), types), limit), meta)
    else match search(query, SearchWidth(count, limit))
      case None => ([], meta)
      case Some(hits) => Scan(meta, hits, Filter(Some(userId), types), limit, [])
  }

  /** `retrieve_knowledge_memories`: no shortcut for an empty query. */
  function KnowledgeRetrieval(meta: Dict<string, Obj>, count: nat, query: string, limit: int,
                              types: Option<seq<string>>, search: Search): (seq<Obj>, Dict<string, Obj>)
  {
    match search(query, SearchWidth(count, limit))
    case None => ([], meta)
    case Some(hits) => Scan(meta, hits, Filter(None, types), limit, [])
  }

  /**
   * A user retrieval returns only that user's entries of the listed types,
   * at most a positive `limit` of them; a failed search returns nothing and
   * changes nothing; and the store keeps its keys.
   */
  lemma UserRetrievalSpec(meta: Dict<string, Obj>, count: nat, userId: string, query: string, limit: int,
                          types: Option<seq<string>>, search: Search)
    requires meta.Valid()
    ensures var (r, m2) := UserRetrieval(meta, count, userId, query, limit, types, search);
      && (forall i :: 0 <= i < |r| ==> Keeps(Filter(Some(userId), types), r[i]))
      && (limit >= 1 ==> |r| <= limit)
      && m2.keys == meta.keys && m2.Valid()
      && (query != "" && search(query, SearchWidth(count, limit)).None? ==> r == [] && m2 == meta)
      && (query == "" ==> m2 == meta)
  {
    var f := Filter(Some(userId), types);
    if query == "" {
      RecentSpec(meta, f, limit);
    } else if search(query, SearchWidth(count, limit)).Some? {
      var hits := search(query, SearchWidth(count, limit)).value;
      ScanBounded(meta, hits, f, limit, []);
      ScanRescores(meta, hits, f, limit, []);
    }
  }

  /** A knowledge retrieval returns only entries of the listed types, at most a positive `limit`, and the store keeps its keys. */
  lemma KnowledgeRetrievalSpec(meta: Dict<string, Obj>, count: nat, query: string, limit: int,
                               types: Option<seq<string>>, search: Search)
    requires meta.Valid()
    ensures var (r, m2) := KnowledgeRetrieval(meta, count, query, limit, types, search);
      && (forall i :: 0 <= i < |r| ==> Keeps(Filter(None, types), r[i]))
      && (limit >= 1 ==> |r| <= limit)
      && m2.keys == meta.keys && m2.Valid()
      && (search(query, SearchWidth(count, limit)).None? ==> r == [] && m2 == meta)
  {
    if search(query, SearchWidth(count, limit)).Some? {
      var hits := search(query, SearchWidth(count, limit)).value;
      ScanBounded(meta, hits, Filter(None, types), limit, []);
      ScanRescores(meta, hits, Filter(None, types), limit, []);
    }
  }

  /** A search never asks for more neighbours than the index holds, nor for more than twice the limit. */
  lemma SearchWidthBounds(count: nat, limit: int)
    ensures SearchWidth(count, limit) <= count && SearchWidth(count, limit) <= limit * 2
    ensures SearchWidth(count, limit) == count || SearchWidth(count, limit) == limit * 2
  {
  }

  // Ids

  /** The metadata keys of an index holding `n` vectors: "0", "1", …, in insertion order. */
  function Ids(n: nat): seq<string>
  {
    if n == 0 then [] else Ids(n - 1) + [NatToString(n - 1)]
  }

  /** The `i`-th key is the decimal text of `i`. */
  lemma {:induction false} IdsIndex(n: nat)
    ensures |Ids(n)| == n
    ensures forall i :: 0 <= i < n ==> Ids(n)[i] == NatToString(i)
  {
    if n > 0 {
      IdsIndex(n - 1);
    }
  }

  /** The next id's key is not yet taken. */
  lemma IdsFresh(n: nat)
    ensures NatToString(n) !in Ids(n)
  {
    IdsIndex(n);
    if NatToString(n) in Ids(n) {
      var i :| 0 <= i < n && Ids(n)[i] == NatToString(n);
      NatToStringInjective(i, n);
    }
  }

  // The service object

  class VectorMemoryService {
    var userCount: nat
    var knowledgeCount: nat
    var userMetadata: Dict<string, Obj>
    var knowledgeMetadata: Dict<string, Obj>
    const vectorDim: int
    const memoryDir: string
    const render: Value -> string

    /** Each index's metadata holds exactly one entry per vector, under the keys "0", "1", … in order. */
    ghost predicate Valid()
      reads this
    {
      && userMetadata.Valid() && userMetadata.keys == Ids(userCount)
      && knowledgeMetadata.Valid() && knowledgeMetadata.keys == Ids(knowledgeCount)
    }

    /** A service over empty indexes (no index files on disk). */
    constructor(vectorDim: int, memoryDir: string, render: Value -> string)
      ensures Valid()
      ensures userCount == 0 && knowledgeCount == 0
      ensures userMetadata == Empty() && knowledgeMetadata == Empty()
      ensures this.vectorDim == vectorDim && this.memoryDir == memoryDir && this.render == render
    {
      this.vectorDim := vectorDim;
      this.memoryDir := memoryDir;
      this.render := render;
      userCount := 0;
      knowledgeCount := 0;
      userMetadata := Empty();
      knowledgeMetadata := Empty();
    }

    /** `index_id = ntotal; index.add(...); user_metadata[str(index_id)] = entry` */
    method AddUserEntry(entry: Obj)
      requires Valid()
      modifies this
      ensures Valid()
      ensures userCount == old(userCount) + 1
      ensures userMetadata == old(userMetadata).Put(NatToString(old(userCount)), entry)
      ensures knowledgeCount == old(knowledgeCount) && knowledgeMetadata == old(knowledgeMetadata)
    {
      IdsFresh(userCount);
      PutValid(userMetadata, NatToString(userCount), entry);
      userMetadata := userMetadata.Put(NatToString(userCount), entry);
      userCount := userCount + 1;
    }

    /** The same for the knowledge index. */
    method AddKnowledgeEntry(entry: Obj)
      requires Valid()
      modifies this
      ensures Valid()
      ensures knowledgeCount == old(knowledgeCount) + 1
      ensures knowledgeMetadata == old(knowledgeMetadata).Put(NatToString(old(knowledgeCount)), entry)
      ensures userCount == old(userCount) && userMetadata == old(userMetadata)
    {
      IdsFresh(knowledgeCount);
      PutValid(knowledgeMetadata, NatToString(knowledgeCount), entry);
      knowledgeMetadata := knowledgeMetadata.Put(NatToString(knowledgeCount), entry);
      knowledgeCount := knowledgeCount + 1;
    }

    /**
     * `store_user_preference`; `now` is the clock and `addFails` says whether
     * `index.add` raised. A builder or add failure is swallowed and stores
     * nothing.
     */
    method StoreUserPreference(userId: string, ptype: string, data: Obj, now: string, addFails: bool)
      requires Valid()
      modifies this
      ensures Valid()
      ensures var text := PreferenceText(ptype, data, render);
        if text.None? || addFails then
          userCount == old(userCount) && userMetadata == old(userMetadata)
        else
          userCount == old(userCount) + 1 &&
          userMetadata == old(userMetadata).Put(NatToString(old(userCount)), PreferenceEntry(userId, ptype, data, text.value, now))
      ensures knowledgeCount == old(knowledgeCount) && knowledgeMetadata == old(knowledgeMetadata)
    {
      var text := PreferenceText(ptype, data, render);
      if text.Some? && !addFails {
        AddUserEntry(PreferenceEntry(userId, ptype, data, text.value, now));
      }
    }

    /** `store_user_trip` */
    method StoreUserTrip(userId: string, data: Obj, now: string, addFails: bool)
      requires Valid()
      modifies this
      ensures Valid()
      ensures var text := TripText(data, render);
        if text.None? || addFails then
          userCount == old(userCount) && userMetadata == old(userMetadata)
        else
          userCount == old(userCount) + 1 &&
          userMetadata == old(userMetadata).Put(NatToString(old(userCount)), TripEntry(userId, data, text.value, now))
      ensures knowledgeCount == old(knowledgeCount) && knowledgeMetadata == old(knowledgeMetadata)
    {
      var text := TripText(data, render);
      if text.Some? && !addFails {
        AddUserEntry(TripEntry(userId, data, text.value, now));
      }
    }

    /** `store_user_feedback`: only the add can fail. */
    method StoreUserFeedback(userId: string, tripId: string, data: Obj, now: string, addFails: bool)
      requires Valid()
      modifies this
      ensures Valid()
      ensures if addFails then
          userCount == old(userCount) && userMetadata == old(userMetadata)
        else
          userCount == old(userCount) + 1 &&
          userMetadata == old(userMetadata).Put(NatToString(old(userCount)),
            FeedbackEntry(userId, tripId, data, FeedbackText(data, render), now))
      ensures knowledgeCount == old(knowledgeCount) && knowledgeMetadata == old(knowledgeMetadata)
    {
      if !addFails {
        AddUserEntry(FeedbackEntry(userId, tripId, data, FeedbackText(data, render), now));
      }
    }

    /** `store_destination_knowledge` */
    method StoreDestinationKnowledge(destination: string, data: Obj, now: string, addFails: bool)
      requires Valid()
      modifies this
      ensures Valid()
      ensures var text := DestinationText(destination, data, render);
        if text.None? || addFails then
          knowledgeCount == old(knowledgeCount) && knowledgeMetadata == old(knowledgeMetadata)
        else
          knowledgeCount == old(knowledgeCount) + 1 &&
          knowledgeMetadata == old(knowledgeMetadata).Put(NatToString(old(knowledgeCount)),
            DestinationEntry(destination, data, text.value, now))
      ensures userCount == old(userCount) && userMetadata == old(userMetadata)
    {
      var text := DestinationText(destination, data, render);
      if text.Some? && !addFails {
        AddKnowledgeEntry(DestinationEntry(destination, data, text.value, now));
      }
    }

    /** `store_travel_experience` */
    method StoreTravelExperience(etype: string, data: Obj, now: string, addFails: bool)
      requires Valid()
      modifies this
      ensures Valid()
      ensures var text := ExperienceText(etype, data, render);
        if text.None? || addFails then
          knowledgeCount == old(knowledgeCount) && knowledgeMetadata == old(knowledgeMetadata)
        else
          knowledgeCount == old(knowledgeCount) + 1 &&
          knowledgeMetadata == old(knowledgeMetadata).Put(NatToString(old(knowledgeCount)),
            ExperienceEntry(etype, data, text.value, now))
      ensures userCount == old(userCount) && userMetadata == old(userMetadata)
    {
      var text := ExperienceText(etype, data, render);
      if text.Some? && !addFails {
        AddKnowledgeEntry(ExperienceEntry(etype, data, text.value, now));
      }
    }

    /** `retrieve_user_memories`; `search` is the user index's search at this moment. */
    method RetrieveUserMemories(userId: string, query: string, limit: int, types: Option<seq<string>>, search: Search)
      returns (r: seq<Obj>)
      requires Valid()
      modifies this
      ensures Valid()
      ensures (r, userMetadata) == UserRetrieval(old(userMetadata), old(userCount), userId, query, limit, types, search)
      ensures userCount == old(userCount)
      ensures knowledgeCount == old(knowledgeCount) && knowledgeMetadata == old(knowledgeMetadata)
    {
      if query == "" {
        r := Recent(userMetadata, Filter(Some(userId), types), limit);
        return;
      }
      var hits := search(query, SearchWidth(userCount, limit));
      if hits.None? {
        r := [];
        return;
      }
      var store;
      r, store := ScanHits(userMetadata, hits.value, Filter(Some(userId), types), limit);
      UserRetrievalSpec(userMetadata, userCount, userId, query, limit, types, search);
      userMetadata := store;
    }

    /** `retrieve_knowledge_memories`; `search` is the knowledge index's search at this moment. */
    method RetrieveKnowledgeMemories(query: string, limit: int, types: Option<seq<string>>, search: Search)
      returns (r: seq<Obj>)
      requires Valid()
      modifies this
      ensures Valid()
      ensures (r, knowledgeMetadata) == KnowledgeRetrieval(old(knowledgeMetadata), old(knowledgeCount), query, limit, types, search)
      ensures knowledgeCount == old(knowledgeCount)
      ensures userCount == old(userCount) && userMetadata == old(userMetadata)
    {
      var hits := search(query, SearchWidth(knowledgeCount, limit));
      if hits.None? {
        r := [];
        return;
      }
      var store;
      r, store := ScanHits(knowledgeMetadata, hits.value, Filter(None, types), limit);
      KnowledgeRetrievalSpec(knowledgeMetadata, knowledgeCount, query, limit, types, search);
      knowledgeMetadata := store;
    }

    /** `hybrid_search`: both keys always, each list filled only when its flag is set. */
    method HybridSearch(userId: string, query: string, userLimit: int, knowledgeLimit: int,
                        includeUser: bool, includeKnowledge: bool, userSearch: Search, knowledgeSearch: Search)
      returns (r: Dict<string, seq<Obj>>)
      requires Valid()
      modifies this
      ensures Valid()
      ensures r.Valid() && r.keys == ["user_memories", "knowledge_memories"]
      ensures r.m["user_memories"] == if includeUser then
          UserRetrieval(old(userMetadata), old(userCount), userId, query, userLimit, None, userSearch).0
        else []
      ensures r.m["knowledge_memories"] == if includeKnowledge then
          KnowledgeRetrieval(old(knowledgeMetadata), old(knowledgeCount), query, knowledgeLimit, None, knowledgeSearch).0
        else []
      ensures userMetadata == if includeUser then
          UserRetrieval(old(userMetadata), old(userCount), userId, query, userLimit, None, userSearch).1
        else old(userMetadata)
      ensures knowledgeMetadata == if includeKnowledge then
          KnowledgeRetrieval(old(knowledgeMetadata), old(knowledgeCount), query, knowledgeLimit, None, knowledgeSearch).1
        else old(knowledgeMetadata)
      ensures userCount == old(userCount) && knowledgeCount == old(knowledgeCount)
    {
      r := Dict(["user_memories", "knowledge_memories"], map["user_memories" := [], "knowledge_memories" := []]);
      if includeUser {
        var u := RetrieveUserMemories(userId, query, userLimit, None, userSearch);
        r := r.Put("user_memories", u);
      }
      if includeKnowledge {
        var k := RetrieveKnowledgeMemories(query, knowledgeLimit, None, knowledgeSearch);
        r := r.Put("knowledge_memories", k);
      }
    }

    /** `get_stats` */
    function Stats(): (r: Obj)
      reads this
      ensures r.Valid()
    {
      Dict(["user_memory_count", "knowledge_memory_count", "vector_dimension", "memory_directory"],
        map["user_memory_count" := VInt(userCount), "knowledge_memory_count" := VInt(knowledgeCount),
          "vector_dimension" := VInt(vectorDim), "memory_directory" := VStr(memoryDir)])
    }

    /** The reported counts are the numbers of stored entries. */
    lemma StatsCountEntries()
      requires Valid()
      ensures Stats().m["user_memory_count"] == VInt(userMetadata.Size())
      ensures Stats().m["knowledge_memory_count"] == VInt(knowledgeMetadata.Size())
    {
      IdsIndex(userCount);
      IdsIndex(knowledgeCount);
    }
  }
}
