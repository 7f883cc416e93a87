/**
 * The JSON-backed memory service: per-user long- and short-term memory,
 * destination knowledge and experiences, held in nested dicts; stores
 * append or overwrite, retrievals look up, filter, rank and truncate.
 */
module Memory {
  import opened Wrappers
  import opened Strings
  import opened Dicts
  import opened Values
  import opened Sorting

  /** `short_term_memory[key]`: `{"data": ..., "timestamp": ...}` */
  datatype ShortEntry = ShortEntry(data: Value, timestamp: string)

  /** `meta_memory`; a record created by a feedback or context store starts with neither key. */
  datatype Meta = Meta(createdAt: Option<string>, lastUpdated: Option<string>)

  /** `user_memory[user_id]` */
  datatype UserRecord = UserRecord(longTerm: Dict<string, seq<Obj>>, shortTerm: Dict<string, ShortEntry>, meta: Meta)

  /** `knowledge_memory["destinations"][destination]` */
  datatype DestinationEntry = DestinationEntry(createdAt: string, knowledge: seq<Obj>, lastUpdated: string)

  type Users = Dict<string, UserRecord>

  /** The record `store_user_preference` creates: both meta stamps set. */
  function PreferenceUser(now: string): UserRecord {
    UserRecord(Empty(), Empty(), Meta(Some(now), Some(now)))
  }

  /** The record `store_user_feedback` and `store_short_term_context` create: empty meta. */
  function BareUser(): UserRecord {
    UserRecord(Empty(), Empty(), Meta(None, None))
  }

  function ListOf(d: Dict<string, seq<Obj>>, k: string): seq<Obj> {
    d.GetOr(k, [])
  }

  /** `d | {"timestamp": now}` written into the caller's dict. */
  function Stamped(data: Obj, now: string): Obj {
    data.Put("timestamp", VStr(now))
  }

  /** `store_user_preference`: the record after appending `entry` under `ptype`. */
  function AddPreference(rec: Option<UserRecord>, ptype: string, entry: Obj, now: string): UserRecord {
    var r := if rec.Some? then rec.value else PreferenceUser(now);
    UserRecord(r.longTerm.Put(ptype, ListOf(r.longTerm, ptype) + [entry]), r.shortTerm,
               r.meta.(lastUpdated := Some(now)))
  }

  /** `{"trip_id": trip_id, "timestamp": now, **feedback_data}` */
  function FeedbackEntry(tripId: string, now: string, feedback: Obj): Obj {
    Merged(Dict(["trip_id", "timestamp"], map["trip_id" := VStr(tripId), "timestamp" := VStr(now)]), feedback)
  }

  const FeedbackKey: string := "feedback_history"

  function AddFeedback(rec: Option<UserRecord>, entry: Obj): UserRecord {
    var r := if rec.Some? then rec.value else BareUser();
    r.(longTerm := r.longTerm.Put(FeedbackKey, ListOf(r.longTerm, FeedbackKey) + [entry]))
  }

  function AddShortTerm(rec: Option<UserRecord>, key: string, data: Value, now: string): UserRecord {
    var r := if rec.Some? then rec.value else BareUser();
    r.(shortTerm := r.shortTerm.Put(key, ShortEntry(data, now)))
  }

  /** `{"timestamp": now, **data}` */
  function TimedEntry(now: string, data: Obj): Obj {
    Merged(Dict(["timestamp"], map["timestamp" := VStr(now)]), data)
  }

  function AddKnowledge(entry: Option<DestinationEntry>, data: Obj, now: string): DestinationEntry {
    var e := if entry.Some? then entry.value else DestinationEntry(now, [], now);
    DestinationEntry(e.createdAt, e.knowledge + [TimedEntry(now, data)], now)
  }

  /** An optional string argument that is given and non-empty. */
  predicate Given(s: Option<string>) {
    s.Some? && s.value != ""
  }

  /** What `retrieve_user_preferences` returns: the whole long-term map, or one list. */
  datatype Preferences = AllPreferences(all: Dict<string, seq<Obj>>) | PreferencesOfType(items: seq<Obj>)

  function RetrievePreferences(users: Users, userId: string, ptype: Option<string>): (r: Preferences)
    ensures userId !in users.m ==> r == AllPreferences(Empty())
    ensures userId in users.m && Given(ptype) ==> r == PreferencesOfType(ListOf(users.m[userId].longTerm, ptype.value))
    ensures userId in users.m && !Given(ptype) ==> r == AllPreferences(users.m[userId].longTerm)
  {
    if userId !in users.m then AllPreferences(Empty())
    else if Given(ptype) then PreferencesOfType(ListOf(users.m[userId].longTerm, ptype.value))
    else AllPreferences(users.m[userId].longTerm)
  }

  /** `retrieve_user_feedback`: `feedback_history[-limit:]`, so a zero limit returns everything. */
  function RetrieveFeedback(users: Users, userId: string, limit: int): (r: seq<Obj>)
    ensures userId !in users.m ==> r == []
    ensures userId in users.m ==>
      var h := ListOf(users.m[userId].longTerm, FeedbackKey);
      && (limit == 0 ==> r == h)
      && (0 < limit ==> |r| == (if limit < |h| then limit else |h|) && r == h[|h| - |r|..])
  {
    if userId !in users.m then [] else SliceFrom(ListOf(users.m[userId].longTerm, FeedbackKey), -limit)
  }

  /** What `retrieve_short_term_context` returns: the whole map, or one entry (`None` for `{}`). */
  datatype ShortTerm = AllShortTerm(all: Dict<string, ShortEntry>) | OneShortTerm(entry: Option<ShortEntry>)

  function RetrieveShortTerm(users: Users, userId: string, key: Option<string>): (r: ShortTerm)
    ensures userId !in users.m ==> r == AllShortTerm(Empty())
    ensures userId in users.m && Given(key) ==> r == OneShortTerm(users.m[userId].shortTerm.Get(key.value))
    ensures userId in users.m && !Given(key) ==> r == AllShortTerm(users.m[userId].shortTerm)
  {
    if userId !in users.m then AllShortTerm(Empty())
    else if Given(key) then OneShortTerm(users.m[userId].shortTerm.Get(key.value))
    else AllShortTerm(users.m[userId].shortTerm)
  }

  // Similar trips

  /** One entry of `retrieve_similar_trips`'s result. */
  datatype SimilarTrip = SimilarTrip(tripData: Obj, feedback: Obj, matchScore: nat, userId: string)

  /** `len(set(preferences) & set(trip_preferences))` */
  function MatchScore(prefs: seq<string>, tripPrefs: seq<string>): nat {
    |set p | p in prefs && p in tripPrefs|
  }

  lemma MatchScorePositive(prefs: seq<string>, tripPrefs: seq<string>)
    ensures MatchScore(prefs, tripPrefs) > 0 <==> exists p :: p in prefs && p in tripPrefs
  {
    var common := set q | q in prefs && q in tripPrefs;
    if exists p :: p in prefs && p in tripPrefs {
      var p :| p in prefs && p in tripPrefs;
      assert p in common;
    }
    if |common| > 0 {
      var p :| p in common;
    }
  }

  /**
   * The similarity test for one feedback entry: a non-empty `trip_data`
   * dict, the destination contained case-insensitively in the trip's, and
   * at least one preference in common.
   */
  function Candidate(userId: string, fb: Obj, destination: string, prefs: seq<string>): (r: Option<SimilarTrip>)
    ensures r.Some? ==>
      && GetObj(fb, "trip_data").Some? && TruthyObj(GetObj(fb, "trip_data").value)
      && r.value.tripData == GetObj(fb, "trip_data").value && r.value.feedback == fb && r.value.userId == userId
      && Contains(Lower(GetStr(r.value.tripData, "destination").GetOr("")), Lower(destination))
      && r.value.matchScore == MatchScore(prefs, GetStrList(r.value.tripData, "preferences")) > 0
  {
    match GetObj(fb, "trip_data")
    case None => None
    case Some(td) =>
      if !TruthyObj(td) then None
      else if !Contains(Lower(GetStr(td, "destination").GetOr("")), Lower(destination)) then None
      else
        var score := MatchScore(prefs, GetStrList(td, "preferences"));
        if score > 0 then Some(SimilarTrip(td, fb, score, userId)) else None
  }

  function FeedbackOf(users: Users, userId: string): seq<Obj> {
    if userId in users.m then ListOf(users.m[userId].longTerm, FeedbackKey) else []
  }

  /** The candidates among one user's feedback entries, in stored order. */
  function CandidatesOf(userId: string, fbs: seq<Obj>, destination: string, prefs: seq<string>): seq<SimilarTrip>
    decreases |fbs|
  {
    if fbs == [] then []
    else
      var c := Candidate(userId, fbs[|fbs| - 1], destination, prefs);
      CandidatesOf(userId, fbs[..|fbs| - 1], destination, prefs) + (if c.Some? then [c.value] else [])
  }

  /** The candidates of the users `ids`, user by user. */
  function CandidatesOver(users: Users, ids: seq<string>, destination: string, prefs: seq<string>): seq<SimilarTrip>
    decreases |ids|
  {
    if ids == [] then []
    else
      var id := ids[|ids| - 1];
      CandidatesOver(users, ids[..|ids| - 1], destination, prefs)
        + CandidatesOf(id, FeedbackOf(users, id), destination, prefs)
  }

  function ScoreOf(t: SimilarTrip): int {
    t.matchScore
  }

  /** `retrieve_similar_trips`: the candidates, best score first (stable), cut to `limit`. */
  function SimilarTrips(users: Users, destination: string, prefs: seq<string>, limit: int): seq<SimilarTrip> {
    SliceTo(SortDesc(CandidatesOver(users, users.keys, destination, prefs), ScoreOf, IntLess), limit)
  }

  lemma {:induction false} CandidatesOfSound(userId: string, fbs: seq<Obj>, destination: string, prefs: seq<string>)
    ensures forall t :: t in CandidatesOf(userId, fbs, destination, prefs) ==>
      exists fb :: fb in fbs && Candidate(userId, fb, destination, prefs) == Some(t)
    decreases |fbs|
  {
    if fbs != [] {
      var init := fbs[..|fbs| - 1];
      CandidatesOfSound(userId, init, destination, prefs);
      forall t | t in CandidatesOf(userId, fbs, destination, prefs)
        ensures exists fb :: fb in fbs && Candidate(userId, fb, destination, prefs) == Some(t)
      {
        if t in CandidatesOf(userId, init, destination, prefs) {
          var fb :| fb in init && Candidate(userId, fb, destination, prefs) == Some(t);
          assert fb in fbs;
        } else {
          assert fbs[|fbs| - 1] in fbs;
        }
      }
    }
  }

  lemma {:induction false} CandidatesOverSound(users: Users, ids: seq<string>, destination: string, prefs: seq<string>)
    ensures forall t :: t in CandidatesOver(users, ids, destination, prefs) ==>
      exists id, fb :: id in ids && fb in FeedbackOf(users, id) && Candidate(id, fb, destination, prefs) == Some(t)
    decreases |ids|
  {
    if ids != [] {
      var init := ids[..|ids| - 1];
      var id := ids[|ids| - 1];
      CandidatesOverSound(users, init, destination, prefs);
      CandidatesOfSound(id, FeedbackOf(users, id), destination, prefs);
      forall t | t in CandidatesOver(users, ids, destination, prefs)
        ensures exists id, fb :: id in ids && fb in FeedbackOf(users, id) && Candidate(id, fb, destination, prefs) == Some(t)
      {
        if t in CandidatesOver(users, init, destination, prefs) {
          var id', fb :| id' in init && fb in FeedbackOf(users, id') && Candidate(id', fb, destination, prefs) == Some(t);
          assert id' in ids;
        } else {
          var fb :| fb in FeedbackOf(users, id) && Candidate(id, fb, destination, prefs) == Some(t);
          assert id in ids;
        }
      }
    }
  }

  /** Every feedback entry that passes the similarity test is among the user's candidates. */
  lemma {:induction false} CandidatesOfComplete(userId: string, fbs: seq<Obj>, destination: string, prefs: seq<string>, fb: Obj)
    requires fb in fbs && Candidate(userId, fb, destination, prefs).Some?
    ensures Candidate(userId, fb, destination, prefs).value in CandidatesOf(userId, fbs, destination, prefs)
    decreases |fbs|
  {
    var init := fbs[..|fbs| - 1];
    if fb != fbs[|fbs| - 1] {
      assert fbs == init + [fbs[|fbs| - 1]];
      assert fb in init;
      CandidatesOfComplete(userId, init, destination, prefs, fb);
    }
  }

  /** Every stored feedback entry of the users `ids` that passes the similarity test is found by the scan. */
  lemma {:induction false} CandidatesOverComplete(users: Users, ids: seq<string>, destination: string, prefs: seq<string>,
                                                  id: string, fb: Obj)
    requires id in ids && fb in FeedbackOf(users, id) && Candidate(id, fb, destination, prefs).Some?
    ensures Candidate(id, fb, destination, prefs).value in CandidatesOver(users, ids, destination, prefs)
    decreases |ids|
  {
    var init := ids[..|ids| - 1];
    if id == ids[|ids| - 1] {
      CandidatesOfComplete(id, FeedbackOf(users, id), destination, prefs, fb);
    } else {
      assert ids == init + [ids[|ids| - 1]];
      assert id in init;
      CandidatesOverComplete(users, init, destination, prefs, id, fb);
    }
  }

  /**
   * Every similar trip comes from a stored feedback entry that passes the
   * similarity test; the list has best scores first, equal scores in stored
   * order, and at most `limit` entries.
   */
  lemma SimilarTripsSpec(users: Users, destination: string, prefs: seq<string>, limit: int)
    ensures var r := SimilarTrips(users, destination, prefs, limit);
      && (limit >= 0 ==> |r| <= limit)
      && (forall i, j :: 0 <= i < j < |r| ==> r[i].matchScore >= r[j].matchScore)
      && (forall t :: t in r ==>
            && t.matchScore > 0
            && exists id, fb :: id in users.keys && fb in FeedbackOf(users, id)
                             && Candidate(id, fb, destination, prefs) == Some(t))
  {
    var all := CandidatesOver(users, users.keys, destination, prefs);
    var sorted := SortDesc(all, ScoreOf, IntLess);
    var r := SimilarTrips(users, destination, prefs, limit);
    IntLessTotal();
    SortDescSorted(all, ScoreOf, IntLess);
    SortDescPerm(all, ScoreOf, IntLess);
    CandidatesOverSound(users, users.keys, destination, prefs);
    assert r == sorted[..|r|];
    forall i, j | 0 <= i < j < |r| ensures r[i].matchScore >= r[j].matchScore {
      assert !IntLess(ScoreOf(sorted[i]), ScoreOf(sorted[j]));
    }
    forall t | t in r
      ensures t.matchScore > 0 && exists id, fb :: id in users.keys && fb in FeedbackOf(users, id)
                                              && Candidate(id, fb, destination, prefs) == Some(t)
    {
      assert t in multiset(sorted);
      assert t in all;
    }
  }

  /** Equal scores keep the order in which the users and their feedback were stored. */
  lemma SimilarTripsStable(users: Users, destination: string, prefs: seq<string>, score: int)
    ensures var all := CandidatesOver(users, users.keys, destination, prefs);
      WithKey(SortDesc(all, ScoreOf, IntLess), ScoreOf, score) == WithKey(all, ScoreOf, score)
  {
    IntLessTotal();
    SortDescStable(CandidatesOver(users, users.keys, destination, prefs), ScoreOf, IntLess, score);
  }

  /**
   * The result is the sorted candidate list cut to `limit`: exactly
   * `min(limit, n)` trips for a non-negative limit, each stored entry that
   * passes the test is a candidate, and no candidate left out scores higher
   * than one kept.
   */
  lemma SimilarTripsTop(users: Users, destination: string, prefs: seq<string>, limit: int)
    ensures var all := CandidatesOver(users, users.keys, destination, prefs);
      var r := SimilarTrips(users, destination, prefs, limit);
      && r == SortDesc(all, ScoreOf, IntLess)[..|r|]
      && (limit >= 0 ==> |r| == if limit < |all| then limit else |all|)
      && (forall t, u :: t in all && t !in r && u in r ==> u.matchScore >= t.matchScore)
      && (limit >= |all| ==> multiset(r) == multiset(all))
  {
    var all := CandidatesOver(users, users.keys, destination, prefs);
    var sorted := SortDesc(all, ScoreOf, IntLess);
    var r := SimilarTrips(users, destination, prefs, limit);
    IntLessTotal();
    SortDescSorted(all, ScoreOf, IntLess);
    SortDescPerm(all, ScoreOf, IntLess);
    assert r == sorted[..|r|];
    SortedPrefixTop(sorted, |r|, ScoreOf, IntLess);
    forall t, u | t in all && t !in r && u in r ensures u.matchScore >= t.matchScore {
      assert t in multiset(sorted);
      assert !IntLess(ScoreOf(u), ScoreOf(t));
    }
    if limit >= |all| {
      assert r == sorted;
    }
  }

  // Experiences

  /** `x.get("timestamp", "")`; a non-string stamp sorts as "". */
  function TimestampOf(x: Obj): string {
    GetStr(x, "timestamp").GetOr("")
  }

  function StrLessFn(): (string, string) -> bool {
    (a: string, b: string) => StrLess(a, b)
  }

  /** Every experience list in type order, concatenated. */
  function AllExperiencesOver(experiences: Dict<string, seq<Obj>>, types: seq<string>): seq<Obj>
    decreases |types|
  {
    if types == [] then []
    else AllExperiencesOver(experiences, types[..|types| - 1]) + ListOf(experiences, types[|types| - 1])
  }

  /** `retrieve_experiences` without a type: newest first, at most `limit`. */
  function RecentExperiences(experiences: Dict<string, seq<Obj>>, limit: int): seq<Obj> {
    SliceTo(SortDesc(AllExperiencesOver(experiences, experiences.keys), TimestampOf, StrLessFn()), limit)
  }

  /** `retrieve_experiences` with a type: the last `limit` of that type. */
  function TypedExperiences(experiences: Dict<string, seq<Obj>>, etype: string, limit: int): (r: seq<Obj>)
    ensures 0 < limit ==> var l := ListOf(experiences, etype);
      |r| == (if limit < |l| then limit else |l|) && r == l[|l| - |r|..]
  {
    SliceFrom(ListOf(experiences, etype), -limit)
  }

  lemma RecentExperiencesSpec(experiences: Dict<string, seq<Obj>>, limit: int)
    ensures var r := RecentExperiences(experiences, limit);
      && (limit >= 0 ==> |r| <= limit)
      && (forall i, j :: 0 <= i < j < |r| ==> !StrLess(TimestampOf(r[i]), TimestampOf(r[j])))
      && multiset(r) <= multiset(AllExperiencesOver(experiences, experiences.keys))
  {
    var all := AllExperiencesOver(experiences, experiences.keys);
    var sorted := SortDesc(all, TimestampOf, StrLessFn());
    var r := RecentExperiences(experiences, limit);
    StrLessStrictTotal();
    SortDescSorted(all, TimestampOf, StrLessFn());
    SortDescPerm(all, TimestampOf, StrLessFn());
    assert sorted == r + sorted[|r|..];
    forall i, j | 0 <= i < j < |r| ensures !StrLess(TimestampOf(r[i]), TimestampOf(r[j])) {
      assert !StrLessFn()(TimestampOf(sorted[i]), TimestampOf(sorted[j]));
    }
  }

  /**
   * Without a type, the result is the newest-first list of every experience
   * cut to `limit`: exactly `min(limit, n)` entries for a non-negative
   * limit, and no experience left out is newer than one kept.
   */
  lemma RecentExperiencesTop(experiences: Dict<string, seq<Obj>>, limit: int)
    ensures var all := AllExperiencesOver(experiences, experiences.keys);
      var r := RecentExperiences(experiences, limit);
      && r == SortDesc(all, TimestampOf, StrLessFn())[..|r|]
      && (limit >= 0 ==> |r| == if limit < |all| then limit else |all|)
      && (forall t, u :: t in all && t !in r && u in r ==> !StrLess(TimestampOf(u), TimestampOf(t)))
      && (limit >= |all| ==> multiset(r) == multiset(all))
  {
    var all := AllExperiencesOver(experiences, experiences.keys);
    var sorted := SortDesc(all, TimestampOf, StrLessFn());
    var r := RecentExperiences(experiences, limit);
    StrLessStrictTotal();
    SortDescSorted(all, TimestampOf, StrLessFn());
    SortDescPerm(all, TimestampOf, StrLessFn());
    assert r == sorted[..|r|];
    SortedPrefixTop(sorted, |r|, TimestampOf, StrLessFn());
    forall t, u | t in all && t !in r && u in r ensures !StrLess(TimestampOf(u), TimestampOf(t)) {
      assert t in multiset(sorted);
      assert !StrLessFn()(TimestampOf(u), TimestampOf(t));
    }
    if limit >= |all| {
      assert r == sorted;
    }
  }

  // The service object

  /** What `search_memory` found for the user under one key. */
  datatype UserHit = LongTermHits(items: seq<Obj>) | ShortTermHit(entry: ShortEntry)

  datatype SearchResult = SearchResult(userMemory: Dict<string, UserHit>, knowledgeMemory: Dict<string, DestinationEntry>)

  /** The dict form of a short-term entry, as `str()` sees it. */
  function ShortEntryValue(e: ShortEntry): Value {
    VDict(Dict(["data", "timestamp"], map["data" := e.data, "timestamp" := VStr(e.timestamp)]))
  }

  /** `query.lower() in str(v).lower()`, with `str` supplied as `render`. */
  predicate Mentions(render: Value -> string, v: Value, query: string) {
    Contains(Lower(render(v)), Lower(query))
  }

  /**
   * The items of one long-term list that mention the query, in stored
   * order: every mentioning item is kept as often as it is stored, and
   * nothing else.
   */
  function Hits(render: Value -> string, items: seq<Obj>, query: string): (r: seq<Obj>)
    ensures forall x :: x in r ==> x in items && Mentions(render, VDict(x), query)
    ensures forall x :: x in items && Mentions(render, VDict(x), query) ==> x in r
    ensures forall x :: multiset(r)[x] == if Mentions(render, VDict(x), query) then multiset(items)[x] else 0
    decreases |items|
  {
    if items == [] then []
    else
      var init := items[..|items| - 1];
      var x := items[|items| - 1];
      assert items == init + [x];
      assert multiset(items) == multiset(init) + multiset{x};
      Hits(render, init, query) + (if Mentions(render, VDict(x), query) then [x] else [])
  }

  /** The long-term pass: one list per key with at least one mentioning item. */
  function LongTermSearch(render: Value -> string, lt: Dict<string, seq<Obj>>, ks: seq<string>, query: string): Dict<string, UserHit>
    decreases |ks|
  {
    if ks == [] then Empty()
    else
      var r := LongTermSearch(render, lt, ks[..|ks| - 1], query);
      var k := ks[|ks| - 1];
      var hits := Hits(render, ListOf(lt, k), query);
      if hits == [] then r else r.Put(k, LongTermHits(hits))
  }

  /** The short-term pass: `short_term_<key>` for every mentioning entry, assigned over `r`. */
  function ShortTermSearch(render: Value -> string, st: Dict<string, ShortEntry>, ks: seq<string>, query: string,
                           r: Dict<string, UserHit>): Dict<string, UserHit>
    decreases |ks|
  {
    if ks == [] then r
    else
      var acc := ShortTermSearch(render, st, ks[..|ks| - 1], query, r);
      var k := ks[|ks| - 1];
      if k in st.m && Mentions(render, ShortEntryValue(st.m[k]), query) then acc.Put("short_term_" + k, ShortTermHit(st.m[k]))
      else acc
  }

  function KnowledgeSearch(ds: Dict<string, DestinationEntry>, ks: seq<string>, query: string): Dict<string, DestinationEntry>
    decreases |ks|
  {
    if ks == [] then Empty()
    else
      var r := KnowledgeSearch(ds, ks[..|ks| - 1], query);
      var k := ks[|ks| - 1];
      if k in ds.m && Contains(Lower(k), Lower(query)) then r.Put(k, ds.m[k]) else r
  }

  function UserSearch(render: Value -> string, users: Users, userId: Option<string>, query: string): Dict<string, UserHit> {
    if Given(userId) && userId.value in users.m then
      var rec := users.m[userId.value];
      ShortTermSearch(render, rec.shortTerm, rec.shortTerm.keys, query,
                      LongTermSearch(render, rec.longTerm, rec.longTerm.keys, query))
    else Empty()
  }

  /**
   * The long-term pass reports a key exactly when the key is scanned and
   * some item stored under it mentions the query, and then with all such
   * items.
   */
  lemma LongTermSearchMembers(render: Value -> string, lt: Dict<string, seq<Obj>>, ks: seq<string>,
                              query: string, k: string)
    ensures var out := LongTermSearch(render, lt, ks, query);
      && (k in out.m <==> k in ks && exists x :: x in ListOf(lt, k) && Mentions(render, VDict(x), query))
      && (k in out.m ==> out.m[k] == LongTermHits(Hits(render, ListOf(lt, k), query)))
  {
    LongTermSearchHas(render, lt, ks, query, k);
    HitsEmpty(render, ListOf(lt, k), query);
  }

  lemma {:induction false} LongTermSearchHas(render: Value -> string, lt: Dict<string, seq<Obj>>, ks: seq<string>,
                                             query: string, k: string)
    ensures var out := LongTermSearch(render, lt, ks, query);
      && (k in out.m <==> k in ks && Hits(render, ListOf(lt, k), query) != [])
      && (k in out.m ==> out.m[k] == LongTermHits(Hits(render, ListOf(lt, k), query)))
    decreases |ks|
  {
    if ks != [] {
      var init := ks[..|ks| - 1];
      var last := ks[|ks| - 1];
      LongTermSearchHas(render, lt, init, query, k);
      var r := LongTermSearch(render, lt, init, query);
      var hits := Hits(render, ListOf(lt, last), query);
      assert LongTermSearch(render, lt, ks, query) == if hits == [] then r else r.Put(last, LongTermHits(hits));
      assert k in ks <==> k in init || k == last by {
        assert ks == init + [last];
      }
    }
  }

  /** A list has hits exactly when one of its items mentions the query. */
  lemma HitsEmpty(render: Value -> string, items: seq<Obj>, query: string)
    ensures Hits(render, items, query) != [] <==> exists x :: x in items && Mentions(render, VDict(x), query)
  {
    var hits := Hits(render, items, query);
    if hits != [] {
      assert hits[0] in hits;
    }
  }

  /** `short_term_<key>` names an entry of `ks` whose stored entry mentions the query. */
  ghost predicate ShortHitKey(render: Value -> string, st: Dict<string, ShortEntry>, ks: seq<string>, query: string, j: string) {
    exists k :: k in ks && j == "short_term_" + k && k in st.m && Mentions(render, ShortEntryValue(st.m[k]), query)
  }

  lemma ShortTermKeyInjective(a: string, b: string)
    requires "short_term_" + a == "short_term_" + b
    ensures a == b
  {
    var p := "short_term_";
    assert a == (p + a)[|p|..];
    assert b == (p + b)[|p|..];
  }

  /**
   * The short-term pass adds exactly the keys `short_term_<key>` of the
   * mentioning entries to what the long-term pass found, and leaves every
   * other key as it was.
   */
  lemma {:induction false} ShortTermSearchMembers(render: Value -> string, st: Dict<string, ShortEntry>, ks: seq<string>,
                                                  query: string, r: Dict<string, UserHit>, j: string)
    ensures var out := ShortTermSearch(render, st, ks, query, r);
      && (j in out.m <==> j in r.m || ShortHitKey(render, st, ks, query, j))
      && (j in out.m && !ShortHitKey(render, st, ks, query, j) ==> out.m[j] == r.m[j])
    decreases |ks|
  {
    if ks != [] {
      var init := ks[..|ks| - 1];
      var last := ks[|ks| - 1];
      ShortTermSearchMembers(render, st, init, query, r, j);
      assert ks == init + [last];
      var here := j == "short_term_" + last && last in st.m && Mentions(render, ShortEntryValue(st.m[last]), query);
      if ShortHitKey(render, st, ks, query, j) {
        var k :| k in ks && j == "short_term_" + k && k in st.m && Mentions(render, ShortEntryValue(st.m[k]), query);
        assert k in init || k == last;
      }
      assert ShortHitKey(render, st, ks, query, j) <==> ShortHitKey(render, st, init, query, j) || here;
    }
  }

  /** ... and under `short_term_<key>` it reports that key's stored entry. */
  lemma {:induction false} ShortTermSearchHit(render: Value -> string, st: Dict<string, ShortEntry>, ks: seq<string>,
                                              query: string, r: Dict<string, UserHit>, k: string)
    requires k in ks && k in st.m && Mentions(render, ShortEntryValue(st.m[k]), query)
    ensures var out := ShortTermSearch(render, st, ks, query, r);
      "short_term_" + k in out.m && out.m["short_term_" + k] == ShortTermHit(st.m[k])
    decreases |ks|
  {
    var init := ks[..|ks| - 1];
    var last := ks[|ks| - 1];
    if k != last {
      assert k in init by {
        var i :| 0 <= i < |ks| && ks[i] == k;
        assert i < |ks| - 1;
        assert init[i] == k;
      }
      ShortTermSearchHit(render, st, init, query, r, k);
      if "short_term_" + last == "short_term_" + k {
        ShortTermKeyInjective(last, k);
      }
    }
  }

  /** Only destinations whose name mentions the query are reported. */
  lemma {:induction false} KnowledgeSearchSound(ds: Dict<string, DestinationEntry>, ks: seq<string>, query: string)
    ensures var r := KnowledgeSearch(ds, ks, query);
      forall k :: k in r.m ==> k in ks && k in ds.m && r.m[k] == ds.m[k] && Contains(Lower(k), Lower(query))
    decreases |ks|
  {
    if ks != [] {
      KnowledgeSearchSound(ds, ks[..|ks| - 1], query);
    }
  }

  /** ... and every such destination is. */
  lemma {:induction false} KnowledgeSearchComplete(ds: Dict<string, DestinationEntry>, ks: seq<string>, query: string, k: string)
    requires k in ks && k in ds.m && Contains(Lower(k), Lower(query))
    ensures k in KnowledgeSearch(ds, ks, query).m
    decreases |ks|
  {
    if k != ks[|ks| - 1] {
      var init := ks[..|ks| - 1];
      assert k in init by {
        var i :| 0 <= i < |ks| && ks[i] == k;
        assert i < |ks| - 1;
        assert init[i] == k;
      }
      KnowledgeSearchComplete(ds, init, query, k);
    }
  }

  class MemoryService {
    var users: Users
    var destinations: Dict<string, DestinationEntry>
    var experiences: Dict<string, seq<Obj>>

    /** A service whose memory files were absent: everything empty. */
    constructor ()
      ensures users == Empty() && destinations == Empty() && experiences == Empty()
    {
      users := Empty();
      destinations := Empty();
      experiences := Empty();
    }

    /**
     * `store_user_preference`: stamps the caller's dict (returned as
     * `stamped`) and appends it to the user's list for `ptype`.
     */
    method StoreUserPreference(userId: string, ptype: string, data: Obj, now: string) returns (stamped: Obj)
      modifies this
      ensures stamped == Stamped(data, now)
      ensures users == old(users).Put(userId, AddPreference(old(users).Get(userId), ptype, stamped, now))
      ensures destinations == old(destinations) && experiences == old(experiences)
    {
      stamped := data.Put("timestamp", VStr(now));
      users := users.Put(userId, AddPreference(users.Get(userId), ptype, stamped, now));
    }

    /** `store_user_feedback` */
    method StoreUserFeedback(userId: string, tripId: string, feedback: Obj, now: string)
      modifies this
      ensures users == old(users).Put(userId, AddFeedback(old(users).Get(userId), FeedbackEntry(tripId, now, feedback)))
      ensures destinations == old(destinations) && experiences == old(experiences)
    {
      users := users.Put(userId, AddFeedback(users.Get(userId), FeedbackEntry(tripId, now, feedback)));
    }

    /** `store_short_term_context`: one assignment of `short_term_memory[key]`. */
    method StoreShortTermContext(userId: string, key: string, data: Value, now: string)
      modifies this
      ensures users == old(users).Put(userId, AddShortTerm(old(users).Get(userId), key, data, now))
      ensures destinations == old(destinations) && experiences == old(experiences)
    {
      users := users.Put(userId, AddShortTerm(users.Get(userId), key, data, now));
    }

    /** `store_destination_knowledge` */
    method StoreDestinationKnowledge(destination: string, data: Obj, now: string)
      modifies this
      ensures destinations == old(destinations).Put(destination, AddKnowledge(old(destinations).Get(destination), data, now))
      ensures users == old(users) && experiences == old(experiences)
    {
      destinations := destinations.Put(destination, AddKnowledge(destinations.Get(destination), data, now));
    }

    /** `store_experience` */
    method StoreExperience(etype: string, data: Obj, now: string)
      modifies this
      ensures experiences == old(experiences).Put(etype, ListOf(old(experiences), etype) + [TimedEntry(now, data)])
      ensures users == old(users) && destinations == old(destinations)
    {
      experiences := experiences.Put(etype, ListOf(experiences, etype) + [TimedEntry(now, data)]);
    }

    function RetrieveUserPreferences(userId: string, ptype: Option<string>): Preferences
      reads this
    {
      RetrievePreferences(users, userId, ptype)
    }

    function RetrieveUserFeedback(userId: string, limit: int): seq<Obj>
      reads this
    {
      RetrieveFeedback(users, userId, limit)
    }

    function RetrieveShortTermContext(userId: string, key: Option<string>): ShortTerm
      reads this
    {
      RetrieveShortTerm(users, userId, key)
    }

    function RetrieveDestinationKnowledge(destination: string): Option<DestinationEntry>
      reads this
    {
      RetrieveKnowledge(destinations, destination)
    }

    /** `retrieve_similar_trips`: the scan over users and their feedback, then the sort and the cut. */
    method RetrieveSimilarTrips(destination: string, prefs: seq<string>, limit: int) returns (r: seq<SimilarTrip>)
      ensures r == SimilarTrips(users, destination, prefs, limit)
    {
      var similar := ScanUsers(users, destination, prefs);
      r := SliceTo(SortDesc(similar, ScoreOf, IntLess), limit);
    }

    /** `retrieve_experiences` */
    method RetrieveExperiences(etype: Option<string>, limit: int) returns (r: seq<Obj>)
      ensures Given(etype) ==> r == TypedExperiences(experiences, etype.value, limit)
      ensures !Given(etype) ==> r == RecentExperiences(experiences, limit)
    {
      if Given(etype) {
        return TypedExperiences(experiences, etype.value, limit);
      }
      var all: seq<Obj> := [];
      var types := experiences.keys;
      for i := 0 to |types|
        invariant all == AllExperiencesOver(experiences, types[..i])
      {
        assert types[..i + 1][..i] == types[..i];
        all := all + ListOf(experiences, types[i]);
      }
      assert types[..|types|] == types;
      r := SliceTo(SortDesc(all, TimestampOf, StrLessFn()), limit);
    }

    /** `search_memory`, with Python's `str()` of a stored value supplied as `render`. */
    method SearchMemory(render: Value -> string, query: string, userId: Option<string>) returns (r: SearchResult)
      ensures r.userMemory == UserSearch(render, users, userId, query)
      ensures r.knowledgeMemory == KnowledgeSearch(destinations, destinations.keys, query)
    {
      var found: Dict<string, UserHit> := Empty();
      if Given(userId) && userId.value in users.m {
        var rec := users.m[userId.value];
        found := SearchLongTerm(render, rec.longTerm, query);
        found := SearchShortTerm(render, rec.shortTerm, query, found);
      }
      var knowledge := SearchKnowledge(destinations, query);
      r := SearchResult(found, knowledge);
    }
  }

  /** The outer loop of `retrieve_similar_trips`, user by user. */
  method ScanUsers(users: Users, destination: string, prefs: seq<string>) returns (similar: seq<SimilarTrip>)
    ensures similar == CandidatesOver(users, users.keys, destination, prefs)
  {
    var ids := users.keys;
    similar := [];
    for i := 0 to |ids|
      invariant similar == CandidatesOver(users, ids[..i], destination, prefs)
    {
      assert ids[..i + 1][..i] == ids[..i];
      var found := ScanFeedback(ids[i], FeedbackOf(users, ids[i]), destination, prefs);
      similar := similar + found;
    }
    assert ids[..|ids|] == ids;
  }

  /** The inner loop: one user's feedback entries. */
  method ScanFeedback(id: string, fbs: seq<Obj>, destination: string, prefs: seq<string>) returns (found: seq<SimilarTrip>)
    ensures found == CandidatesOf(id, fbs, destination, prefs)
  {
    found := [];
    for j := 0 to |fbs|
      invariant found == CandidatesOf(id, fbs[..j], destination, prefs)
    {
      assert fbs[..j + 1][..j] == fbs[..j];
      var c := Candidate(id, fbs[j], destination, prefs);
      if c.Some? {
        found := found + [c.value];
      }
    }
    assert fbs[..|fbs|] == fbs;
  }

  method SearchLongTerm(render: Value -> string, lt: Dict<string, seq<Obj>>, query: string) returns (found: Dict<string, UserHit>)
    ensures found == LongTermSearch(render, lt, lt.keys, query)
  {
    found := Empty();
    var ks := lt.keys;
    for i := 0 to |ks|
      invariant found == LongTermSearch(render, lt, ks[..i], query)
    {
      assert ks[..i + 1][..i] == ks[..i];
      var hits := SearchItems(render, ListOf(lt, ks[i]), query);
      if hits != [] {
        found := found.Put(ks[i], LongTermHits(hits));
      }
    }
    assert ks[..|ks|] == ks;
  }

  method SearchItems(render: Value -> string, items: seq<Obj>, query: string) returns (hits: seq<Obj>)
    ensures hits == Hits(render, items, query)
  {
    hits := [];
    for j := 0 to |items|
      invariant hits == Hits(render, items[..j], query)
    {
      assert items[..j + 1][..j] == items[..j];
      if Mentions(render, VDict(items[j]), query) {
        hits := hits + [items[j]];
      }
    }
    assert items[..|items|] == items;
  }

  method SearchShortTerm(render: Value -> string, st: Dict<string, ShortEntry>, query: string, long: Dict<string, UserHit>)
    returns (found: Dict<string, UserHit>)
    ensures found == ShortTermSearch(render, st, st.keys, query, long)
  {
    found := long;
    var ks := st.keys;
    for i := 0 to |ks|
      invariant found == ShortTermSearch(render, st, ks[..i], query, long)
    {
      assert ks[..i + 1][..i] == ks[..i];
      var k := ks[i];
      if k in st.m && Mentions(render, ShortEntryValue(st.m[k]), query) {
        found := found.Put("short_term_" + k, ShortTermHit(st.m[k]));
      }
    }
    assert ks[..|ks|] == ks;
  }

  method SearchKnowledge(ds: Dict<string, DestinationEntry>, query: string) returns (knowledge: Dict<string, DestinationEntry>)
    ensures knowledge == KnowledgeSearch(ds, ds.keys, query)
  {
    knowledge := Empty();
    var ks := ds.keys;
    for i := 0 to |ks|
      invariant knowledge == KnowledgeSearch(ds, ks[..i], query)
    {
      assert ks[..i + 1][..i] == ks[..i];
      var k := ks[i];
      if k in ds.m && Contains(Lower(k), Lower(query)) {
        knowledge := knowledge.Put(k, ds.m[k]);
      }
    }
    assert ks[..|ks|] == ks;
  }

  // Properties of the stores

  /** A preference store grows that user's list for the type by exactly the stamped entry. */
  lemma PreferenceAppends(users: Users, userId: string, ptype: string, data: Obj, now: string)
    requires ptype != ""
    ensures var after := users.Put(userId, AddPreference(users.Get(userId), ptype, Stamped(data, now), now));
      var before := if userId in users.m then ListOf(users.m[userId].longTerm, ptype) else [];
      && RetrievePreferences(after, userId, Some(ptype)) == PreferencesOfType(before + [Stamped(data, now)])
      && (forall u :: u != userId ==> after.Get(u) == users.Get(u))
      && (forall t :: t != ptype && userId in users.m ==>
            ListOf(after.m[userId].longTerm, t) == ListOf(users.m[userId].longTerm, t))
  {
  }

  /** The stamp is written into the caller's dict; its other entries are kept. */
  lemma StampedFields(data: Obj, now: string)
    ensures Stamped(data, now).m["timestamp"] == VStr(now)
    ensures forall k :: k in data.m && k != "timestamp" ==> Stamped(data, now).m[k] == data.m[k]
    ensures "timestamp" in data.m ==> Stamped(data, now).keys == data.keys
  {
  }

  /** Keys in the feedback override the entry's own `trip_id` and `timestamp`. */
  lemma FeedbackEntryFields(tripId: string, now: string, feedback: Obj)
    requires feedback.Valid()
    ensures var e := FeedbackEntry(tripId, now, feedback);
      && (forall k :: k in feedback.m || k == "trip_id" || k == "timestamp" <==> k in e.m)
      && e.m["trip_id"] == (if "trip_id" in feedback.m then feedback.m["trip_id"] else VStr(tripId))
      && e.m["timestamp"] == (if "timestamp" in feedback.m then feedback.m["timestamp"] else VStr(now))
      && (forall k :: k in feedback.m ==> e.m[k] == feedback.m[k])
  {
    MergedMap(Dict(["trip_id", "timestamp"], map["trip_id" := VStr(tripId), "timestamp" := VStr(now)]), feedback);
  }

  /** The newest feedback entry is the last one returned. */
  lemma FeedbackThenRetrieve(users: Users, userId: string, tripId: string, feedback: Obj, now: string, limit: int)
    requires limit > 0
    ensures var e := FeedbackEntry(tripId, now, feedback);
      var r := RetrieveFeedback(users.Put(userId, AddFeedback(users.Get(userId), e)), userId, limit);
      r != [] && r[|r| - 1] == e
  {
  }

  /** A short-term store is read back as it was written; a second store overwrites the first. */
  lemma ShortTermThenRetrieve(users: Users, userId: string, key: string, data: Value, now: string)
    requires key != ""
    ensures var after := users.Put(userId, AddShortTerm(users.Get(userId), key, data, now));
      RetrieveShortTerm(after, userId, Some(key)) == OneShortTerm(Some(ShortEntry(data, now)))
  {
  }

  /** A destination entry keeps its creation stamp and only ever grows by one entry. */
  lemma KnowledgeAppends(entry: Option<DestinationEntry>, data: Obj, now: string)
    ensures var e := AddKnowledge(entry, data, now);
      && (entry.Some? ==> e.createdAt == entry.value.createdAt && e.knowledge == entry.value.knowledge + [TimedEntry(now, data)])
      && (entry.None? ==> e.createdAt == now && e.knowledge == [TimedEntry(now, data)])
      && e.lastUpdated == now
  {
  }

  /** `retrieve_destination_knowledge`: the stored entry of that destination; `None` stands for `{}`. */
  function RetrieveKnowledge(ds: Dict<string, DestinationEntry>, destination: string): (r: Option<DestinationEntry>)
    ensures r.Some? <==> destination in ds.m
    ensures r.Some? ==> r.value == ds.m[destination]
  {
    ds.Get(destination)
  }

  /**
   * A destination store is read back at once: the entry holds everything
   * stored before plus the new timed entry, and every other destination
   * reads as before.
   */
  lemma KnowledgeThenRetrieve(ds: Dict<string, DestinationEntry>, destination: string, other: string, data: Obj, now: string)
    requires other != destination
    ensures var after := ds.Put(destination, AddKnowledge(ds.Get(destination), data, now));
      var before := RetrieveKnowledge(ds, destination);
      var e := RetrieveKnowledge(after, destination);
      && e.Some?
      && e.value.knowledge == (if before.Some? then before.value.knowledge else []) + [TimedEntry(now, data)]
      && e.value.knowledge[|e.value.knowledge| - 1] == TimedEntry(now, data)
      && e.value.createdAt == (if before.Some? then before.value.createdAt else now)
      && e.value.lastUpdated == now
      && RetrieveKnowledge(after, other) == RetrieveKnowledge(ds, other)
  {
    KnowledgeAppends(ds.Get(destination), data, now);
  }

  /** Unknown users read as empty. */
  lemma UnknownUser(users: Users, userId: string, ptype: Option<string>, key: Option<string>, limit: int)
    requires userId !in users.m
    ensures RetrievePreferences(users, userId, ptype) == AllPreferences(Empty())
    ensures RetrieveFeedback(users, userId, limit) == []
    ensures RetrieveShortTerm(users, userId, key) == AllShortTerm(Empty())
  {
  }
}
