/**
 * The four specialised agents of the trip pipeline. Each wraps an
 * `EnhancedAgent` (its `base`) under a fixed name and adds a policy around
 * `run`: it augments the input from keys of the shared blackboard, shares
 * a truncated copy of the answer under a fixed key, and (attraction and
 * planner agents) sends peer messages through the hub. The planner answers
 * every negotiation by agreeing.
 *
 * The agents' system prompts are natural-language constants and are passed
 * in as `systemPrompt`, already built for the call.
 */
module SpecializedAgents {
  import opened Wrappers
  import opened Strings
  import opened Dicts
  import opened Values
  import opened ContextManagement
  import opened AgentCommunication
  import opened ToolCalls
  import opened Memory
  import opened EnhancedAgents

  const AttractionAgentName: string := "景点搜索专家"
  const HotelAgentName: string := "酒店推荐专家"
  const WeatherAgentName: string := "天气查询专家"
  const PlannerAgentName: string := "行程规划专家"

  /** How much of an answer the agents put on the blackboard or in a message. */
  const ShareLimit: int := 500

  /** The names are pairwise different, so the four agents never share a hub entry. */
  lemma AgentNamesDistinct()
    ensures AttractionAgentName != HotelAgentName && AttractionAgentName != WeatherAgentName
    ensures AttractionAgentName != PlannerAgentName && HotelAgentName != WeatherAgentName
    ensures HotelAgentName != PlannerAgentName && WeatherAgentName != PlannerAgentName
  {
    assert AttractionAgentName[0] != HotelAgentName[0];
    assert AttractionAgentName[0] != WeatherAgentName[0];
    assert AttractionAgentName[0] != PlannerAgentName[0];
    assert HotelAgentName[0] != WeatherAgentName[0];
    assert HotelAgentName[0] != PlannerAgentName[0];
    assert WeatherAgentName[0] != PlannerAgentName[0];
  }

  // ---------------------------------------------------------------------
  // Input augmentation

  /** The request context as a dict, when it is a non-empty one. */
  function RequestObj(req: Value): (r: Option<Obj>)
    ensures r.Some? <==> req.VDict? && TruthyObj(req.d)
    ensures r.Some? ==> r.value == req.d
  {
    if req.VDict? && TruthyObj(req.d) then Some(req.d) else None
  }

  /** `request_context.get("preferences", [])`, for a present request context. */
  function RequestPreferences(req: Value): seq<string> {
    match RequestObj(req)
    case None => []
    case Some(d) => GetStrList(d, "preferences")
  }

  const PreferenceLead: string := "，优先搜索"
  const PreferenceTail: string := "相关的景点"

  /** Whether the attraction agent adds the user's preferences to `input`. */
  predicate UsesPreferences(input: string, req: Value) {
    RequestPreferences(req) != [] && !Contains(Lower(input), "景点")
  }

  /** The attraction agent's input: the preferences are appended only when the input does not name attractions. */
  function AttractionInput(input: string, req: Value): (r: string)
    ensures StartsWith(r, input)
    ensures r == input <==> !UsesPreferences(input, req)
    ensures UsesPreferences(input, req) ==>
      r[|input|..] == PreferenceLead + Join(SliceTo(RequestPreferences(req), 2), ", ") + PreferenceTail
  {
    var prefs := RequestPreferences(req);
    if UsesPreferences(input, req) then
      var r := input + PreferenceLead + Join(SliceTo(prefs, 2), ", ") + PreferenceTail;
      assert r[..|input|] == input;
      assert r[|input|..] == PreferenceLead + Join(SliceTo(prefs, 2), ", ") + PreferenceTail;
      r
    else input
  }

  /** A request with preferences `[a, b] + rest` contributes exactly `a` and `b`. */
  lemma AttractionInputFirstTwo(input: string, req: Value, a: string, b: string, rest: seq<string>)
    requires RequestPreferences(req) == [a, b] + rest
    requires !Contains(Lower(input), "景点")
    ensures AttractionInput(input, req) == input + PreferenceLead + a + ", " + b + PreferenceTail
  {
    assert SliceTo([a, b] + rest, 2) == [a, b];
    assert Join([a, b], ", ") == a + ", " + Join([b], ", ");
  }

  /** Without a request context (or with one that gives no preferences) the input is kept. */
  lemma AttractionInputNoPreferences(input: string)
    ensures AttractionInput(input, VNone) == input
  {
  }

  const LocationNote: string := "。请注意景点位置信息："

  /** The attraction locations on the blackboard, when present as a non-empty text. */
  predicate HasLocations(loc: Value) {
    loc.VStr? && loc.s != ""
  }

  /** The hotel agent's input: at most 200 characters of the attraction locations are appended. */
  function HotelInput(input: string, loc: Value): (r: string)
    ensures StartsWith(r, input)
    ensures r == input <==> !HasLocations(loc)
    ensures HasLocations(loc) ==>
      && StartsWith(r[|input|..], LocationNote)
      && |r| == |input| + |LocationNote| + (if |loc.s| < 200 then |loc.s| else 200)
      && StartsWith(loc.s, r[|input| + |LocationNote|..])
  {
    if HasLocations(loc) then
      var cut := SliceTo(loc.s, 200);
      var r := input + LocationNote + cut;
      assert r[..|input|] == input;
      assert r[|input|..][..|LocationNote|] == LocationNote;
      assert r[|input| + |LocationNote|..] == cut;
      r
    else input
  }

  const DateNote: string := "，查询日期范围："

  /** Both dates of the request context, when both are present as non-empty texts. */
  function DateRange(req: Value): (r: Option<(string, string)>)
    ensures r.Some? ==> r.value.0 != "" && r.value.1 != ""
    ensures r.Some? <==>
      && RequestObj(req).Some?
      && GetStr(req.d, "start_date").Some? && GetStr(req.d, "start_date").value != ""
      && GetStr(req.d, "end_date").Some? && GetStr(req.d, "end_date").value != ""
  {
    match RequestObj(req)
    case None => None
    case Some(d) =>
      match (GetStr(d, "start_date"), GetStr(d, "end_date"))
      case (Some(s), Some(e)) => if s != "" && e != "" then Some((s, e)) else None
      case _ => None
  }

  /** The weather agent's input: the date range is appended only when both dates are given. */
  function WeatherInput(input: string, req: Value): (r: string)
    ensures StartsWith(r, input)
    ensures r == input <==> DateRange(req).None?
    ensures DateRange(req).Some? ==>
      r[|input|..] == DateNote + DateRange(req).value.0 + " 到 " + DateRange(req).value.1
  {
    match DateRange(req)
    case None => input
    case Some((s, e)) =>
      var r := input + DateNote + s + " 到 " + e;
      assert r[..|input|] == input;
      assert r[|input|..] == DateNote + s + " 到 " + e;
      r
  }

  /** A request context with only a start date leaves the weather input alone. */
  lemma WeatherNeedsBothDates(input: string, start: string)
    ensures var req := VDict(Dict(["start_date"], map["start_date" := VStr(start)]));
      WeatherInput(input, req) == input
  {
  }

  // ---------------------------------------------------------------------
  // Messages

  /** The attraction agent's notice to the hotel agent. */
  function AttractionNotice(info: string): (r: Obj)
    ensures r.Valid() && r.keys == ["message", "attraction_info"]
    ensures r.m["message"] == VStr("景点搜索完成") && r.m["attraction_info"] == VStr(info)
  {
    Dict(["message", "attraction_info"], map["message" := VStr("景点搜索完成"), "attraction_info" := VStr(info)])
  }

  /** A request payload `{"action": action}`. */
  function ActionRequest(action: string): (r: Obj)
    ensures r.Valid() && r.keys == ["action"] && r.m["action"] == VStr(action)
  {
    Dict(["action"], map["action" := VStr(action)])
  }

  /** The attraction agent runs a search only for a REQUEST whose action is "search_attractions". */
  predicate RunsSearch(m: AgentMessage) {
    m.mtype == Request && "action" in m.content.m && m.content.m["action"] == VStr("search_attractions")
  }

  /** `content.get("query", "")` of a search request. */
  function SearchQuery(m: AgentMessage): string {
    GetStr(m.content, "query").GetOr("")
  }

  function SearchReply(result: string): (r: Obj)
    ensures r.Valid() && "status" in r.m && "result" in r.m
    ensures r.m["status"] == VStr("success") && r.m["result"] == VStr(result)
  {
    Dict(["status", "result"], map["status" := VStr("success"), "result" := VStr(result)])
  }

  /** The planner's `{"action": "provide_attractions"}` request is not a search request, so it gets the default reply. */
  lemma ProvideAttractionsNotSearched(sender: string, ctx: Option<Context>, stamp: Stamp)
    ensures !RunsSearch(NewMessage(sender, AttractionAgentName, Request, ActionRequest("provide_attractions"), ctx, stamp))
  {
    assert "provide_attractions"[0] != "search_attractions"[0];
  }

  /** The planner's reply to a negotiation. */
  function AgreeReply(): (r: Obj)
    ensures r.Valid() && Agrees(r) && TruthyObj(r) && "status" in r.m && "agreement" in r.m
    ensures r.m["status"] == VStr("agree") && r.m["agreement"] == VBool(true)
    ensures AgentCommunication.FeedbackOf(r) == VDict(Empty())
  {
    Dict(["status", "agreement", "feedback"],
         map["status" := VStr("agree"), "agreement" := VBool(true), "feedback" := VDict(Empty())])
  }

  /** `PlannerAgent.handle_message`: agreement for a negotiation, the default reply otherwise. */
  function PlannerReply(m: AgentMessage): (r: Obj)
    ensures m.mtype == Negotiation ==> r == AgreeReply()
    ensures m.mtype != Negotiation ==> r == DefaultReply(PlannerAgentName, m.mtype)
  {
    if m.mtype == Negotiation then AgreeReply() else DefaultReply(PlannerAgentName, m.mtype)
  }

  /**
   * A registered planner: it has no handler for negotiations (the agents
   * register query and request handlers only), so its own `handle_message`
   * answers them.
   */
  ghost predicate PlannerAt(h: HubView, p: string) {
    && p in h.agents.m && Negotiation !in HandlersOf(h, p) && h.agents.m[p].hasHandleMessage
    && forall m: AgentMessage :: m.receiver == p && m.mtype == Negotiation ==>
         h.dispatch(Generic(h.agents.m[p]), m) == Replied(Some(PlannerReply(m)))
  }

  ghost predicate PlannersHub(h: HubView, ps: seq<string>) {
    forall p :: p in ps ==> PlannerAt(h, p)
  }

  lemma PlannerDelivers(h: HubView, p: string, m: AgentMessage)
    requires PlannerAt(h, p) && m.receiver == p && m.mtype == Negotiation
    ensures Deliver(h, m) == Some(AgreeReply())
  {
  }

  /** Asking one more planner adds its agreeing reply under a new key. */
  lemma CollectPlannerStep(h: HubView, initiator: string, p: string, topic: string, proposal: Obj, round: int, n: nat,
                           prev: (Dict<string, Obj>, seq<AgentMessage>))
    requires prev.0.Valid() && AllAgree(prev.0) && p !in prev.0.m && PlannerAt(h, p)
    ensures var r := CollectSnoc(h, initiator, p, topic, proposal, round, n, prev);
      r.0.keys == prev.0.keys + [p] && AllAgree(r.0)
  {
    CollectSnocAsked(h, initiator, p, topic, proposal, round, n, prev);
    var m := NewMessage(initiator, p, Negotiation, NegotiationContent(topic, proposal, round), None,
                        h.clock(n + |prev.1|));
    PlannerDelivers(h, p, m);
  }

  /** Asking planners in turn collects one agreeing reply per participant, keyed in participant order. */
  lemma {:induction false} CollectFromPlanners(h: HubView, initiator: string, ps: seq<string>, topic: string,
                                               proposal: Obj, round: int, n: nat)
    requires Distinct(ps) && PlannersHub(h, ps)
    ensures var c := Collect(h, initiator, ps, topic, proposal, round, n).0;
      c.keys == ps && AllAgree(c)
    decreases |ps|
  {
    if ps != [] {
      var init, p := ps[..|ps| - 1], ps[|ps| - 1];
      PlannersPrefix(h, ps);
      CollectFromPlanners(h, initiator, init, topic, proposal, round, n);
      CollectPlannersLast(h, initiator, init, p, topic, proposal, round, n);
      assert init + [p] == ps;
    } else {
      var empty: Dict<string, Obj> := Empty();
      assert Collect(h, initiator, ps, topic, proposal, round, n) == (empty, []);
    }
  }

  /** The planners before the last one are distinct planners, and the last one is none of them. */
  lemma PlannersPrefix(h: HubView, ps: seq<string>)
    requires ps != [] && Distinct(ps) && PlannersHub(h, ps)
    ensures var init := ps[..|ps| - 1];
      Distinct(init) && PlannersHub(h, init) && ps[|ps| - 1] !in init && PlannerAt(h, ps[|ps| - 1])
  {
    var init := ps[..|ps| - 1];
    var p := ps[|ps| - 1];
    forall q | q in init ensures PlannerAt(h, q) {
      assert q in ps;
    }
    forall k | 0 <= k < |init| ensures init[k] != p {
      assert init[k] == ps[k];
    }
    assert p in ps;
  }

  /** Asking one more planner after the others extends their agreeing replies by its own. */
  lemma CollectPlannersLast(h: HubView, initiator: string, init: seq<string>, p: string, topic: string,
                            proposal: Obj, round: int, n: nat)
    requires p !in init && PlannerAt(h, p)
    requires var c := Collect(h, initiator, init, topic, proposal, round, n).0; c.keys == init && AllAgree(c)
    ensures var c := Collect(h, initiator, init + [p], topic, proposal, round, n).0;
      c.keys == init + [p] && AllAgree(c)
  {
    var prev := Collect(h, initiator, init, topic, proposal, round, n);
    KeyOutside(prev.0, p);
    CollectPlannerStep(h, initiator, p, topic, proposal, round, n, prev);
    assert (init + [p])[..|init + [p]| - 1] == init;
  }

  lemma KeyOutside(d: Dict<string, Obj>, k: string)
    requires d.Valid() && k !in d.keys
    ensures k !in d.m
  {
  }

  /** A negotiation among planners agrees in the first round on the proposal as sent. */
  lemma PlannersAgreeInRoundOne(h: HubView, initiator: string, ps: seq<string>, topic: string, proposal: Obj, n: nat)
    requires Distinct(ps) && PlannersHub(h, ps)
    ensures var r := NegotiateSpec(h, initiator, ps, topic, proposal, n);
      r.consensus && r.round == 1 && r.proposal == proposal && r.responses.keys == ps
  {
    CollectFromPlanners(h, initiator, ps, topic, proposal, 1, n);
    FirstRoundAgrees(h, initiator, ps, topic, proposal, n);
  }

  /** A first round in which every participant answers, under its own key, and agrees ends the negotiation. */
  lemma FirstRoundAgrees(h: HubView, initiator: string, ps: seq<string>, topic: string, proposal: Obj, n: nat)
    requires var c := Collect(h, initiator, ps, topic, proposal, 1, n).0; c.keys == ps && AllAgree(c)
    ensures var r := NegotiateSpec(h, initiator, ps, topic, proposal, n);
      r.consensus && r.round == 1 && r.proposal == proposal && r.responses.keys == ps
  {
    var st := InitialNegState(proposal);
    assert Collect(h, initiator, ps, topic, proposal, 1, n).0.Size() == |ps|;
    FirstRoundStep(h, initiator, ps, topic, n, st);
    OneRound(h, initiator, ps, topic, n, st);
  }

  // ---------------------------------------------------------------------
  // Planner policy

  /** The peer requests the planner sends: (receiver, action), attractions first. */
  function PlannerRequests(shared: Dict<string, Value>): (r: seq<(string, string)>)
    ensures (AttractionAgentName, "provide_attractions") in r <==> "attraction_locations" !in shared.m
    ensures (HotelAgentName, "provide_hotels") in r <==> "hotel_recommendations" !in shared.m
    ensures |r| == (if "attraction_locations" in shared.m then 0 else 1) + (if "hotel_recommendations" in shared.m then 0 else 1)
    ensures |r| == 2 ==> r[0].0 == AttractionAgentName
  {
    AgentNamesDistinct();
    (if "attraction_locations" !in shared.m then [(AttractionAgentName, "provide_attractions")] else [])
    + (if "hotel_recommendations" !in shared.m then [(HotelAgentName, "provide_hotels")] else [])
  }

  /** The messages for `reqs`, from `sender`, stamped from log position `n` on. */
  function RequestMessages(sender: string, reqs: seq<(string, string)>, ctx: Option<Context>,
                           clock: nat -> Stamp, n: nat): (r: seq<AgentMessage>)
    ensures |r| == |reqs|
  {
    if reqs == [] then []
    else [NewMessage(sender, reqs[0].0, Request, ActionRequest(reqs[0].1), ctx, clock(n))]
         + RequestMessages(sender, reqs[1..], ctx, clock, n + 1)
  }

  /** The `i`-th message asks for the `i`-th request, stamped at log position `n + i`. */
  lemma {:induction false} RequestMessagesAt(sender: string, reqs: seq<(string, string)>, ctx: Option<Context>,
                                             clock: nat -> Stamp, n: nat, i: nat)
    requires i < |reqs|
    ensures RequestMessages(sender, reqs, ctx, clock, n)[i]
         == NewMessage(sender, reqs[i].0, Request, ActionRequest(reqs[i].1), ctx, clock(n + i))
    decreases i
  {
    if i > 0 {
      RequestMessagesAt(sender, reqs[1..], ctx, clock, n + 1, i - 1);
      assert reqs[1..][i - 1] == reqs[i];
      assert n + 1 + (i - 1) == n + i;
    }
  }

  lemma {:induction false} RequestMessagesAppend(sender: string, xs: seq<(string, string)>, ys: seq<(string, string)>,
                                                 ctx: Option<Context>, clock: nat -> Stamp, n: nat)
    ensures RequestMessages(sender, xs + ys, ctx, clock, n)
         == RequestMessages(sender, xs, ctx, clock, n) + RequestMessages(sender, ys, ctx, clock, n + |xs|)
  {
    if xs == [] {
      assert xs + ys == ys;
    } else {
      var t := xs + ys;
      TailOfConcat(xs, ys);
      RequestMessagesAppend(sender, xs[1..], ys, ctx, clock, n + 1);
      assert n + 1 + |xs[1..]| == n + |xs|;
      var m := NewMessage(sender, xs[0].0, Request, ActionRequest(xs[0].1), ctx, clock(n));
      var a := RequestMessages(sender, xs[1..], ctx, clock, n + 1);
      var b := RequestMessages(sender, ys, ctx, clock, n + |xs|);
      assert RequestMessages(sender, t[1..], ctx, clock, n + 1) == a + b;
      assert RequestMessages(sender, t, ctx, clock, n) == [m] + (a + b);
      assert [m] + (a + b) == ([m] + a) + b;
    }
  }

  /** The preference the planner stores after a run with a request context. */
  function TripMemory(req: Obj, result: string): (r: Obj)
    ensures r.Valid() && r.keys == ["preference_type", "destination", "preferences", "trip_result"]
    ensures "preference_type" in r.m && "destination" in r.m && "preferences" in r.m && "trip_result" in r.m
    ensures MemoryKey(r, "preference_type", "general") == "trip_planning"
    ensures r.m["destination"] == req.GetOr("destination", VNone)
    ensures r.m["preferences"] == req.GetOr("preferences", VList([]))
    ensures r.m["trip_result"] == VStr(SliceTo(result, 200))
  {
    Dict(["preference_type", "destination", "preferences", "trip_result"],
         map["preference_type" := VStr("trip_planning"),
             "destination" := req.GetOr("destination", VNone),
             "preferences" := req.GetOr("preferences", VList([])),
             "trip_result" := VStr(SliceTo(result, 200))])
  }

  // ---------------------------------------------------------------------
  // The agents

  class AttractionAgent {
    const base: EnhancedAgent

    /** The agent's fixed name and tool setting. */
    ghost predicate Valid() {
      base.name == AttractionAgentName && base.enableToolCalling
    }

    /** Tool calling is on: the agent is always given a registry. */
    constructor (llm: Llm, registry: ToolRegistry, contextManager: Option<ContextManager>, hub: Option<CommunicationHub>,
                 userId: Option<string>, memory: MemoryService, instance: AgentInstance, onQuery: HandlerId, onRequest: HandlerId)
      modifies if hub.Some? then {hub.value} else {}
      ensures Valid()
      ensures base.llm == llm && base.registry == Some(registry) && base.history == []
      ensures base.contextManager == contextManager && base.hub == hub && base.userId == userId && base.memory == memory
      ensures hub.Some? ==>
        && hub.value.agents == old(hub.value.agents).Put(AttractionAgentName, instance)
        && hub.value.handlers == old(hub.value.handlers)[AttractionAgentName := map[Query := onQuery, Request := onRequest]]
        && hub.value.history == old(hub.value.history)
    {
      base := new EnhancedAgent(AttractionAgentName, llm, Some(registry), true, contextManager, hub, userId, memory,
                                instance, onQuery, onRequest);
    }

    /**
     * `run`: preferences from the request context may be appended to the
     * input; with both a hub and a blackboard, the first 500 characters of
     * the answer are shared as "attraction_locations" and sent to the hotel
     * agent as one SUGGESTION.
     */
    method Run(input: string, maxIter: int, systemPrompt: string, now: string) returns (r: string)
      modifies base, base.llm, base.Board(), base.HubSet()
      ensures var cm := base.contextManager;
        var text := if cm.Some? then AttractionInput(input, SharedDataOf(old(cm.value.context), "request")) else input;
        && r == base.AnswerFor(old(base.llm.calls), old(base.history), text, maxIter, systemPrompt)
        && base.llm.calls == base.CallsAfter(old(base.llm.calls), old(base.history), text, maxIter, systemPrompt)
        && base.history == old(base.history) + [Turn("user", text), Turn("assistant", r)]
        && (cm.Some? ==>
              var o := base.Outcome(old(base.llm.calls), old(base.history), text, maxIter, systemPrompt);
              var after := RunContext(old(cm.value.context), base.name, text, r, base.enableToolCalling, o.iterations, now);
              cm.value.context == if base.hub.Some? then AfterShare(after, "attraction_locations", VStr(SliceTo(r, ShareLimit)), Some(base.name), now)
                                  else after)
        && (base.hub.Some? ==>
              && base.hub.value.agents == old(base.hub.value.agents) && base.hub.value.handlers == old(base.hub.value.handlers)
              && base.hub.value.history == old(base.hub.value.history)
                   + if cm.Some? then [NewMessage(base.name, HotelAgentName, Suggestion, AttractionNotice(SliceTo(r, ShareLimit)),
                                                  Some(cm.value.context), base.hub.value.clock(|old(base.hub.value.history)|))]
                     else [])
    {
      var text := input;
      if base.contextManager.Some? {
        text := AttractionInput(input, base.contextManager.value.GetSharedData("request"));
      }
      r := RunOn(text, maxIter, systemPrompt, now);
    }

    /** `run` on the augmented input. */
    method RunOn(text: string, maxIter: int, systemPrompt: string, now: string) returns (r: string)
      modifies base, base.llm, base.Board(), base.HubSet()
      ensures var cm := base.contextManager;
        && r == base.AnswerFor(old(base.llm.calls), old(base.history), text, maxIter, systemPrompt)
        && base.llm.calls == base.CallsAfter(old(base.llm.calls), old(base.history), text, maxIter, systemPrompt)
        && base.history == old(base.history) + [Turn("user", text), Turn("assistant", r)]
        && (cm.Some? ==>
              var o := base.Outcome(old(base.llm.calls), old(base.history), text, maxIter, systemPrompt);
              var after := RunContext(old(cm.value.context), base.name, text, r, base.enableToolCalling, o.iterations, now);
              cm.value.context == if base.hub.Some? then AfterShare(after, "attraction_locations", VStr(SliceTo(r, ShareLimit)), Some(base.name), now)
                                  else after)
        && (base.hub.Some? ==>
              && base.hub.value.agents == old(base.hub.value.agents) && base.hub.value.handlers == old(base.hub.value.handlers)
              && base.hub.value.history == old(base.hub.value.history)
                   + if cm.Some? then [NewMessage(base.name, HotelAgentName, Suggestion, AttractionNotice(SliceTo(r, ShareLimit)),
                                                  Some(cm.value.context), base.hub.value.clock(|old(base.hub.value.history)|))]
                     else [])
    {
      r := base.Run(text, maxIter, systemPrompt, now);
      if base.hub.Some? && base.contextManager.Some? {
        Notify(r, now);
      }
    }

    /** The blackboard entry and the hotel agent's notice after a run with both a hub and a blackboard. */
    method Notify(r: string, now: string)
      requires base.hub.Some? && base.contextManager.Some?
      modifies base.contextManager.value, base.hub.value
      ensures var cm := base.contextManager.value;
        cm.context == AfterShare(old(cm.context), "attraction_locations", VStr(SliceTo(r, ShareLimit)), Some(base.name), now)
      ensures var hub := base.hub.value;
        && hub.agents == old(hub.agents) && hub.handlers == old(hub.handlers)
        && hub.history == old(hub.history) + [NewMessage(base.name, HotelAgentName, Suggestion, AttractionNotice(SliceTo(r, ShareLimit)),
                                                         Some(base.contextManager.value.context), hub.clock(|old(hub.history)|))]
    {
      base.contextManager.value.ShareData("attraction_locations", VStr(SliceTo(r, ShareLimit)), Some(base.name), now);
      var _ := base.SendMessageToAgent(HotelAgentName, Suggestion, AttractionNotice(SliceTo(r, ShareLimit)));
    }

    /** `handle_message`: a search request runs the agent on its query (three tool iterations); anything else gets the default reply. */
    method HandleMessage(m: AgentMessage, systemPrompt: string, now: string) returns (reply: Obj)
      requires Valid()
      modifies base, base.llm, base.Board(), base.HubSet()
      ensures !RunsSearch(m) ==>
        && reply == DefaultReply(AttractionAgentName, m.mtype)
        && base.history == old(base.history) && base.llm.calls == old(base.llm.calls)
      ensures RunsSearch(m) ==>
        var cm := base.contextManager;
        var text := if cm.Some? then AttractionInput(SearchQuery(m), SharedDataOf(old(cm.value.context), "request")) else SearchQuery(m);
        var answer := base.AnswerFor(old(base.llm.calls), old(base.history), text, 3, systemPrompt);
        && reply == SearchReply(answer)
        && base.history == old(base.history) + [Turn("user", text), Turn("assistant", answer)]
    {
      if RunsSearch(m) {
        var result := Run(SearchQuery(m), 3, systemPrompt, now);
        return SearchReply(result);
      }
      return base.HandleMessage(m);
    }
  }

  class HotelAgent {
    const base: EnhancedAgent

    /** The agent's fixed name and tool setting. */
    ghost predicate Valid() {
      base.name == HotelAgentName && base.enableToolCalling
    }

    constructor (llm: Llm, registry: ToolRegistry, contextManager: Option<ContextManager>, hub: Option<CommunicationHub>,
                 userId: Option<string>, memory: MemoryService, instance: AgentInstance, onQuery: HandlerId, onRequest: HandlerId)
      modifies if hub.Some? then {hub.value} else {}
      ensures Valid()
      ensures base.llm == llm && base.registry == Some(registry) && base.history == []
      ensures base.contextManager == contextManager && base.hub == hub && base.userId == userId && base.memory == memory
      ensures hub.Some? ==>
        && hub.value.agents == old(hub.value.agents).Put(HotelAgentName, instance)
        && hub.value.handlers == old(hub.value.handlers)[HotelAgentName := map[Query := onQuery, Request := onRequest]]
        && hub.value.history == old(hub.value.history)
    {
      base := new EnhancedAgent(HotelAgentName, llm, Some(registry), true, contextManager, hub, userId, memory,
                                instance, onQuery, onRequest);
    }

    /**
     * `run`: the attraction locations, when on the blackboard, are appended
     * to the input; afterwards the first 500 characters of the answer are
     * shared as "hotel_recommendations".
     */
    method Run(input: string, maxIter: int, systemPrompt: string, now: string) returns (r: string)
      modifies base, base.llm, base.Board()
      ensures var cm := base.contextManager;
        var text := if cm.Some? then HotelInput(input, SharedDataOf(old(cm.value.context), "attraction_locations")) else input;
        && r == base.AnswerFor(old(base.llm.calls), old(base.history), text, maxIter, systemPrompt)
        && base.llm.calls == base.CallsAfter(old(base.llm.calls), old(base.history), text, maxIter, systemPrompt)
        && base.history == old(base.history) + [Turn("user", text), Turn("assistant", r)]
        && (cm.Some? ==>
              var o := base.Outcome(old(base.llm.calls), old(base.history), text, maxIter, systemPrompt);
              cm.value.context == AfterShare(RunContext(old(cm.value.context), base.name, text, r, base.enableToolCalling, o.iterations, now),
                                             "hotel_recommendations", VStr(SliceTo(r, ShareLimit)), Some(base.name), now))
    {
      var text := input;
      if base.contextManager.Some? {
        text := HotelInput(input, base.contextManager.value.GetSharedData("attraction_locations"));
      }
      r := base.Run(text, maxIter, systemPrompt, now);
      if base.contextManager.Some? {
        base.contextManager.value.ShareData("hotel_recommendations", VStr(SliceTo(r, ShareLimit)), Some(base.name), now);
      }
    }

    /** `handle_message`: a suggestion is only logged, so every message gets the default reply. */
    function HandleMessage(m: AgentMessage): (reply: Obj)
      requires Valid()
      ensures reply == DefaultReply(HotelAgentName, m.mtype)
    {
      base.HandleMessage(m)
    }
  }

  class WeatherAgent {
    const base: EnhancedAgent

    /** The agent's fixed name and tool setting. */
    ghost predicate Valid() {
      base.name == WeatherAgentName && base.enableToolCalling
    }

    constructor (llm: Llm, registry: ToolRegistry, contextManager: Option<ContextManager>, hub: Option<CommunicationHub>,
                 userId: Option<string>, memory: MemoryService, instance: AgentInstance, onQuery: HandlerId, onRequest: HandlerId)
      modifies if hub.Some? then {hub.value} else {}
      ensures Valid()
      ensures base.llm == llm && base.registry == Some(registry) && base.history == []
      ensures base.contextManager == contextManager && base.hub == hub && base.userId == userId && base.memory == memory
      ensures hub.Some? ==>
        && hub.value.agents == old(hub.value.agents).Put(WeatherAgentName, instance)
        && hub.value.handlers == old(hub.value.handlers)[WeatherAgentName := map[Query := onQuery, Request := onRequest]]
        && hub.value.history == old(hub.value.history)
    {
      base := new EnhancedAgent(WeatherAgentName, llm, Some(registry), true, contextManager, hub, userId, memory,
                                instance, onQuery, onRequest);
    }

    /**
     * `run`: the request's date range, when both dates are given, is
     * appended to the input; afterwards the first 500 characters of the
     * answer are shared as "weather_info".
     */
    method Run(input: string, maxIter: int, systemPrompt: string, now: string) returns (r: string)
      modifies base, base.llm, base.Board()
      ensures var cm := base.contextManager;
        var text := if cm.Some? then WeatherInput(input, SharedDataOf(old(cm.value.context), "request")) else input;
        && r == base.AnswerFor(old(base.llm.calls), old(base.history), text, maxIter, systemPrompt)
        && base.llm.calls == base.CallsAfter(old(base.llm.calls), old(base.history), text, maxIter, systemPrompt)
        && base.history == old(base.history) + [Turn("user", text), Turn("assistant", r)]
        && (cm.Some? ==>
              var o := base.Outcome(old(base.llm.calls), old(base.history), text, maxIter, systemPrompt);
              cm.value.context == AfterShare(RunContext(old(cm.value.context), base.name, text, r, base.enableToolCalling, o.iterations, now),
                                             "weather_info", VStr(SliceTo(r, ShareLimit)), Some(base.name), now))
    {
      var text := input;
      if base.contextManager.Some? {
        text := WeatherInput(input, base.contextManager.value.GetSharedData("request"));
      }
      r := base.Run(text, maxIter, systemPrompt, now);
      if base.contextManager.Some? {
        base.contextManager.value.ShareData("weather_info", VStr(SliceTo(r, ShareLimit)), Some(base.name), now);
      }
    }

    function HandleMessage(m: AgentMessage): (reply: Obj)
      requires Valid()
      ensures reply == DefaultReply(WeatherAgentName, m.mtype)
    {
      base.HandleMessage(m)
    }
  }

  class PlannerAgent {
    const base: EnhancedAgent

    /** The agent's fixed name and tool setting. */
    ghost predicate Valid() {
      base.name == PlannerAgentName && !base.enableToolCalling
    }

    /** The planner has no tool registry, so tool calling is off. */
    constructor (llm: Llm, contextManager: Option<ContextManager>, hub: Option<CommunicationHub>,
                 userId: Option<string>, memory: MemoryService, instance: AgentInstance, onQuery: HandlerId, onRequest: HandlerId)
      modifies if hub.Some? then {hub.value} else {}
      ensures Valid()
      ensures base.llm == llm && base.registry == None && base.history == []
      ensures base.contextManager == contextManager && base.hub == hub && base.userId == userId && base.memory == memory
      ensures hub.Some? ==>
        && hub.value.agents == old(hub.value.agents).Put(PlannerAgentName, instance)
        && hub.value.handlers == old(hub.value.handlers)[PlannerAgentName := map[Query := onQuery, Request := onRequest]]
        && hub.value.history == old(hub.value.history)
    {
      base := new EnhancedAgent(PlannerAgentName, llm, None, false, contextManager, hub, userId, memory,
                                instance, onQuery, onRequest);
    }

    function HandleMessage(m: AgentMessage): (reply: Obj)
      requires Valid()
      ensures reply == PlannerReply(m)
    {
      if m.mtype == Negotiation then AgreeReply() else base.HandleMessage(m)
    }

    /**
     * `run`: with a blackboard, a REQUEST goes to the attraction agent when
     * "attraction_locations" is not shared and to the hotel agent when
     * "hotel_recommendations" is not; then the base run; then, for a given
     * user and a request context, a "trip_planning" preference is stored.
     */
    method Run(input: string, maxIter: int, systemPrompt: string, now: string) returns (r: string)
      modifies base, base.llm, base.Board(), base.HubSet(), base.memory
      ensures var cm := base.contextManager;
        && r == base.AnswerFor(old(base.llm.calls), old(base.history), input, maxIter, systemPrompt)
        && base.llm.calls == base.CallsAfter(old(base.llm.calls), old(base.history), input, maxIter, systemPrompt)
        && base.history == old(base.history) + [Turn("user", input), Turn("assistant", r)]
        && (cm.Some? ==>
              var o := base.Outcome(old(base.llm.calls), old(base.history), input, maxIter, systemPrompt);
              cm.value.context == RunContext(old(cm.value.context), base.name, input, r, base.enableToolCalling, o.iterations, now))
        && (base.hub.Some? ==>
              && base.hub.value.agents == old(base.hub.value.agents) && base.hub.value.handlers == old(base.hub.value.handlers)
              && base.hub.value.history == old(base.hub.value.history)
                   + if cm.Some? then RequestMessages(base.name, PlannerRequests(AllSharedData(old(cm.value.context))),
                                                      Some(old(cm.value.context)), base.hub.value.clock, |old(base.hub.value.history)|)
                     else [])
      ensures var cm := base.contextManager;
        var req := if cm.Some? then RequestObj(SharedDataOf(cm.value.context, "request")) else None;
        && (Given(base.userId) && req.Some? ==>
              base.memory.users == old(base.memory.users).Put(base.userId.value,
                AddPreference(old(base.memory.users).Get(base.userId.value), "trip_planning", Stamped(TripMemory(req.value, r), now), now)))
        && (!(Given(base.userId) && req.Some?) ==> base.memory.users == old(base.memory.users))
        && base.memory.destinations == old(base.memory.destinations) && base.memory.experiences == old(base.memory.experiences)
    {
      if base.contextManager.Some? && base.hub.Some? {
        RequestMissing();
      }
      assert base.llm.calls == old(base.llm.calls) && base.history == old(base.history);
      assert base.contextManager.Some? ==> base.contextManager.value.context == old(base.contextManager.value.context);
      assert base.memory.users == old(base.memory.users) && base.memory.destinations == old(base.memory.destinations)
        && base.memory.experiences == old(base.memory.experiences);
      ghost var hubHistory := if base.hub.Some? then base.hub.value.history else [];
      r := RunAndRemember(input, maxIter, systemPrompt, now);
      assert base.hub.Some? ==> base.hub.value.history == hubHistory;
    }

    /** The base run, then the stored preference. */
    method RunAndRemember(input: string, maxIter: int, systemPrompt: string, now: string) returns (r: string)
      modifies base, base.llm, base.Board(), base.memory
      ensures var cm := base.contextManager;
        && r == base.AnswerFor(old(base.llm.calls), old(base.history), input, maxIter, systemPrompt)
        && base.llm.calls == base.CallsAfter(old(base.llm.calls), old(base.history), input, maxIter, systemPrompt)
        && base.history == old(base.history) + [Turn("user", input), Turn("assistant", r)]
        && (cm.Some? ==>
              var o := base.Outcome(old(base.llm.calls), old(base.history), input, maxIter, systemPrompt);
              cm.value.context == RunContext(old(cm.value.context), base.name, input, r, base.enableToolCalling, o.iterations, now))
      ensures var cm := base.contextManager;
        var req := if cm.Some? then RequestObj(SharedDataOf(cm.value.context, "request")) else None;
        && (Given(base.userId) && req.Some? ==>
              base.memory.users == old(base.memory.users).Put(base.userId.value,
                AddPreference(old(base.memory.users).Get(base.userId.value), "trip_planning", Stamped(TripMemory(req.value, r), now), now)))
        && (!(Given(base.userId) && req.Some?) ==> base.memory.users == old(base.memory.users))
        && base.memory.destinations == old(base.memory.destinations) && base.memory.experiences == old(base.memory.experiences)
    {
      r := base.Run(input, maxIter, systemPrompt, now);
      if Given(base.userId) && base.contextManager.Some? {
        Remember(r, now);
      }
    }

    /** The peer requests for the keys missing from the blackboard, judged on one reading of it. */
    method RequestMissing()
      requires base.contextManager.Some? && base.hub.Some?
      modifies base.hub.value
      ensures var hub := base.hub.value; var c := base.contextManager.value.context;
        && hub.agents == old(hub.agents) && hub.handlers == old(hub.handlers)
        && hub.history == old(hub.history) + RequestMessages(base.name, PlannerRequests(AllSharedData(c)), Some(c), hub.clock, |old(hub.history)|)
    {
      var cm := base.contextManager.value;
      var shared := cm.GetAllSharedData();
      ghost var hist0 := base.hub.value.history;
      ghost var clock := base.hub.value.clock;
      ghost var first: seq<(string, string)> := [];
      if "attraction_locations" !in shared.m {
        Ask(AttractionAgentName, "provide_attractions");
        first := [(AttractionAgentName, "provide_attractions")];
      }
      assert base.hub.value.history == hist0 + RequestMessages(base.name, first, Some(cm.context), clock, |hist0|);
      ghost var second: seq<(string, string)> := [];
      ghost var hist1 := base.hub.value.history;
      if "hotel_recommendations" !in shared.m {
        Ask(HotelAgentName, "provide_hotels");
        second := [(HotelAgentName, "provide_hotels")];
      }
      assert base.hub.value.history == hist1 + RequestMessages(base.name, second, Some(cm.context), clock, |hist1|);
      RequestMessagesAppend(base.name, first, second, Some(cm.context), clock, |hist0|);
      assert first + second == PlannerRequests(shared);
      assert base.hub.value.history == hist0 + RequestMessages(base.name, PlannerRequests(shared), Some(cm.context), clock, |hist0|);
      assert shared == AllSharedData(cm.context);
    }

    /** One request message to `receiver` through the hub. */
    method Ask(receiver: string, action: string)
      requires base.contextManager.Some? && base.hub.Some?
      modifies base.hub.value
      ensures var hub := base.hub.value;
        && hub.agents == old(hub.agents) && hub.handlers == old(hub.handlers)
        && hub.history == old(hub.history) + [NewMessage(base.name, receiver, Request, ActionRequest(action),
                                                         Some(base.contextManager.value.context), hub.clock(|old(hub.history)|))]
    {
      var _ := base.SendMessageToAgent(receiver, Request, ActionRequest(action));
    }

    /** The "trip_planning" preference stored after a run, when the blackboard holds a request context. */
    method Remember(r: string, now: string)
      requires Given(base.userId) && base.contextManager.Some?
      modifies base.memory
      ensures var req := RequestObj(SharedDataOf(base.contextManager.value.context, "request"));
        && (req.Some? ==>
              base.memory.users == old(base.memory.users).Put(base.userId.value,
                AddPreference(old(base.memory.users).Get(base.userId.value), "trip_planning", Stamped(TripMemory(req.value, r), now), now)))
        && (req.None? ==> base.memory.users == old(base.memory.users))
        && base.memory.destinations == old(base.memory.destinations) && base.memory.experiences == old(base.memory.experiences)
    {
      var req := RequestObj(base.contextManager.value.GetSharedData("request"));
      if req.Some? {
        base.StoreMemory("preference", TripMemory(req.value, r), now);
      }
    }
  }
}
