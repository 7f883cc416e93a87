/**
 * The agents' message hub: a registry of agents and of per-(agent, message
 * type) handlers, an append-only message log, fail-soft point-to-point
 * delivery, ordered broadcast, and a bounded negotiation loop that merges
 * feedback into a proposal.
 *
 * What a handler does is not visible here: the hub is given a `dispatch`
 * oracle that says, for a target and a message, whether the handler
 * returned a response (possibly `None`) or raised. Message timestamps come
 * from a `clock` oracle read with the message's position in the log.
 */
module AgentCommunication {
  import opened Wrappers
  import opened Strings
  import opened Dicts
  import opened Values
  import opened ContextManagement

  datatype MessageType = Query | Suggestion | Negotiation | Feedback | Result | Request

  /** `MessageType.X.value` */
  function TypeValue(t: MessageType): string {
    match t
    case Query => "query"
    case Suggestion => "suggestion"
    case Negotiation => "negotiation"
    case Feedback => "feedback"
    case Result => "result"
    case Request => "request"
  }

  /** A clock reading: ISO text and whole seconds since the epoch. */
  datatype Stamp = Stamp(iso: string, epochSeconds: int)

  /**
   * `AgentMessage`; a `None` context stands for `{}`. The creation stamp is
   * kept whole: `timestamp` is its ISO text and `message_id` is derived from
   * its seconds.
   */
  datatype AgentMessage = AgentMessage(
    sender: string,
    receiver: string,
    mtype: MessageType,
    content: Obj,
    context: Option<Context>,
    stamp: Stamp)
  {
    function Timestamp(): string {
      stamp.iso
    }

    /** `f"{sender}_{receiver}_{int(timestamp)}"` */
    function MessageId(): (id: string)
      ensures StartsWith(id, sender + "_" + receiver + "_")
      ensures id[|sender + "_" + receiver + "_"|..] == IntToString(stamp.epochSeconds)
    {
      var prefix := sender + "_" + receiver + "_";
      var id := prefix + IntToString(stamp.epochSeconds);
      assert id[..|prefix|] == prefix;
      id
    }
  }

  /** `AgentMessage(sender, receiver, type, content, context)` created at `stamp`. */
  function NewMessage(sender: string, receiver: string, mtype: MessageType, content: Obj,
                      context: Option<Context>, stamp: Stamp): AgentMessage {
    AgentMessage(sender, receiver, mtype, content, context, stamp)
  }

  /** What the hub knows of a registered agent object. */
  datatype AgentInstance = AgentInstance(id: nat, hasHandleMessage: bool)

  datatype HandlerId = HandlerId(id: nat)

  /** Who handles a delivered message: a registered handler, or the agent's own `handle_message`. */
  datatype Target = Typed(handler: HandlerId) | Generic(agent: AgentInstance)

  /** A handler either returns (a response, or `None`) or raises. */
  datatype HandlerOutcome = Replied(response: Option<Obj>) | Fault

  /** The hub's registries and oracles; the log is kept apart. */
  datatype HubView = HubView(
    agents: Dict<string, AgentInstance>,
    handlers: map<string, map<MessageType, HandlerId>>,
    dispatch: (Target, AgentMessage) -> HandlerOutcome,
    clock: nat -> Stamp)

  function HandlersOf(h: HubView, agent: string): map<MessageType, HandlerId> {
    if agent in h.handlers then h.handlers[agent] else map[]
  }

  /** A raised handler is reported to the sender as `None`. */
  function OutcomeResponse(o: HandlerOutcome): Option<Obj> {
    match o
    case Replied(r) => r
    case Fault => None
  }

  /** The response `send_message` returns for `m`. */
  function Deliver(h: HubView, m: AgentMessage): Option<Obj> {
    if m.receiver !in h.agents.m then None
    else
      var hs := HandlersOf(h, m.receiver);
      if m.mtype in hs then OutcomeResponse(h.dispatch(Typed(hs[m.mtype]), m))
      else if h.agents.m[m.receiver].hasHandleMessage then
        OutcomeResponse(h.dispatch(Generic(h.agents.m[m.receiver]), m))
      else None
  }

  /**
   * Delivery order: an unknown receiver gets nothing; a handler registered
   * for the message type takes precedence; otherwise the agent's own
   * `handle_message`, if it has one.
   */
  lemma DeliverCases(h: HubView, m: AgentMessage)
    ensures m.receiver !in h.agents.m ==> Deliver(h, m) == None
    ensures m.receiver in h.agents.m && m.mtype in HandlersOf(h, m.receiver) ==>
      Deliver(h, m) == OutcomeResponse(h.dispatch(Typed(HandlersOf(h, m.receiver)[m.mtype]), m))
    ensures m.receiver in h.agents.m && m.mtype !in HandlersOf(h, m.receiver) ==>
      Deliver(h, m) == (if h.agents.m[m.receiver].hasHandleMessage
                        then OutcomeResponse(h.dispatch(Generic(h.agents.m[m.receiver]), m))
                        else None)
  {
  }

  /** A fault in any handler never reaches the sender. */
  lemma FaultIsNone(h: HubView, m: AgentMessage)
    requires m.receiver in h.agents.m
    requires m.mtype in HandlersOf(h, m.receiver) ==> h.dispatch(Typed(HandlersOf(h, m.receiver)[m.mtype]), m) == Fault
    requires m.mtype !in HandlersOf(h, m.receiver) ==> h.dispatch(Generic(h.agents.m[m.receiver]), m) == Fault
    ensures Deliver(h, m) == None
  {
  }

  // ---------------------------------------------------------------------
  // Broadcast

  datatype BroadcastReply = BroadcastReply(agent: string, response: Obj)

  /** The names a broadcast addresses, in registration order. */
  function Addressees(names: seq<string>, sender: string, exclude: seq<string>): seq<string> {
    if names == [] then []
    else (Addressees(names[..|names| - 1], sender, exclude)
          + (var x := names[|names| - 1]; if x == sender || x in exclude then [] else [x]))
  }

  /** Exactly the registered names other than the sender and the excluded are addressed. */
  lemma {:induction false} AddresseesMembers(names: seq<string>, sender: string, exclude: seq<string>)
    ensures forall x :: x in Addressees(names, sender, exclude) <==> x in names && x != sender && x !in exclude
    decreases |names|
  {
    if names != [] {
      AddresseesMembers(names[..|names| - 1], sender, exclude);
      assert names == names[..|names| - 1] + [names[|names| - 1]];
    }
  }

  /** The messages a broadcast sends, one per addressee, the first taking log position `n`. */
  function BroadcastSent(h: HubView, sender: string, mtype: MessageType, content: Obj,
                         addressees: seq<string>, n: nat): (r: seq<AgentMessage>)
    ensures |r| == |addressees|
    decreases |addressees|
  {
    if addressees == [] then []
    else
      var init := addressees[..|addressees| - 1];
      BroadcastSent(h, sender, mtype, content, init, n)
        + [NewMessage(sender, addressees[|addressees| - 1], mtype, content, None, h.clock(n + |init|))]
  }

  /** The i-th addressee gets the i-th message, stamped at log position `n + i`. */
  lemma {:induction false} BroadcastSentAt(h: HubView, sender: string, mtype: MessageType, content: Obj,
                                           addressees: seq<string>, n: nat, i: nat)
    requires i < |addressees|
    ensures BroadcastSent(h, sender, mtype, content, addressees, n)[i]
         == NewMessage(sender, addressees[i], mtype, content, None, h.clock(n + i))
    decreases |addressees|
  {
    if i < |addressees| - 1 {
      BroadcastSentAt(h, sender, mtype, content, addressees[..|addressees| - 1], n, i);
    }
  }

  lemma BroadcastSentSnoc(h: HubView, sender: string, mtype: MessageType, content: Obj,
                          addressees: seq<string>, name: string, n: nat)
    ensures BroadcastSent(h, sender, mtype, content, addressees + [name], n)
         == BroadcastSent(h, sender, mtype, content, addressees, n)
            + [NewMessage(sender, name, mtype, content, None, h.clock(n + |addressees|))]
  {
  }

  /**
   * The replies that the hub keeps for a list of sent messages: exactly the
   * truthy responses, each tagged with its receiver, in sending order.
   */
  function TruthyReplies(h: HubView, sent: seq<AgentMessage>): (r: seq<BroadcastReply>)
    ensures |r| <= |sent|
  {
    if sent == [] then []
    else
      var m := sent[|sent| - 1];
      var resp := Deliver(h, m);
      TruthyReplies(h, sent[..|sent| - 1])
        + (if resp.Some? && TruthyObj(resp.value) then [BroadcastReply(m.receiver, resp.value)] else [])
  }

  /** Every kept reply comes from a sent message, and every truthy response is kept. */
  lemma {:induction false} TruthyRepliesExact(h: HubView, sent: seq<AgentMessage>)
    ensures forall x :: x in TruthyReplies(h, sent) ==> TruthyObj(x.response)
    ensures forall x :: x in TruthyReplies(h, sent) ==>
      exists m :: m in sent && x.agent == m.receiver && Deliver(h, m) == Some(x.response)
    ensures forall m :: m in sent && Deliver(h, m).Some? && TruthyObj(Deliver(h, m).value) ==>
      BroadcastReply(m.receiver, Deliver(h, m).value) in TruthyReplies(h, sent)
    decreases |sent|
  {
    if sent != [] {
      var init := sent[..|sent| - 1];
      TruthyRepliesExact(h, init);
      assert sent == init + [sent[|sent| - 1]];
      forall x | x in TruthyReplies(h, sent)
        ensures exists m :: m in sent && x.agent == m.receiver && Deliver(h, m) == Some(x.response)
      {
        if x in TruthyReplies(h, init) {
          var m :| m in init && x.agent == m.receiver && Deliver(h, m) == Some(x.response);
          assert m in sent;
        }
      }
    }
  }

  lemma TruthyRepliesSnoc(h: HubView, sent: seq<AgentMessage>, m: AgentMessage)
    ensures var resp := Deliver(h, m);
      TruthyReplies(h, sent + [m]) == TruthyReplies(h, sent)
        + (if resp.Some? && TruthyObj(resp.value) then [BroadcastReply(m.receiver, resp.value)] else [])
  {
    assert (sent + [m])[..|sent|] == sent;
  }
  /**
   * A broadcast over the agent names `names`, as the loop runs it: the
   * replies so far and the messages sent so far, the first message taking
   * log position `n`.
   */
  function BroadcastOver(h: HubView, sender: string, mtype: MessageType, content: Obj, exclude: seq<string>,
                         names: seq<string>, n: nat): (seq<BroadcastReply>, seq<AgentMessage>)
    decreases |names|
  {
    if names == [] then ([], [])
    else BroadcastSnoc(h, sender, mtype, content, exclude, names[|names| - 1], n,
                       BroadcastOver(h, sender, mtype, content, exclude, names[..|names| - 1], n))
  }

  /** The broadcast loop's body for agent `name`. */
  function BroadcastSnoc(h: HubView, sender: string, mtype: MessageType, content: Obj, exclude: seq<string>,
                         name: string, n: nat, prev: (seq<BroadcastReply>, seq<AgentMessage>))
    : (seq<BroadcastReply>, seq<AgentMessage>)
  {
    if name == sender || name in exclude then prev
    else
      var m := NewMessage(sender, name, mtype, content, None, h.clock(n + |prev.1|));
      var resp := Deliver(h, m);
      (prev.0 + (if resp.Some? && TruthyObj(resp.value) then [BroadcastReply(name, resp.value)] else []),
       prev.1 + [m])
  }

  lemma BroadcastSnocSent(h: HubView, sender: string, mtype: MessageType, content: Obj, exclude: seq<string>,
                          name: string, n: nat, prev: (seq<BroadcastReply>, seq<AgentMessage>))
    requires name != sender && name !in exclude
    ensures var m := NewMessage(sender, name, mtype, content, None, h.clock(n + |prev.1|));
      var resp := Deliver(h, m);
      BroadcastSnoc(h, sender, mtype, content, exclude, name, n, prev)
        == (prev.0 + (if resp.Some? && TruthyObj(resp.value) then [BroadcastReply(name, resp.value)] else []),
            prev.1 + [m])
  {
  }

  lemma BroadcastOverStep(h: HubView, sender: string, mtype: MessageType, content: Obj, exclude: seq<string>,
                          names: seq<string>, i: nat, n: nat)
    requires i < |names|
    ensures BroadcastOver(h, sender, mtype, content, exclude, names[..i + 1], n)
         == BroadcastSnoc(h, sender, mtype, content, exclude, names[i], n,
                          BroadcastOver(h, sender, mtype, content, exclude, names[..i], n))
  {
    assert names[..i + 1][..i] == names[..i];
  }

  /**
   * The loop's result against the reference definitions: one message to each
   * addressee in order, stamped at consecutive log positions, and exactly the
   * truthy responses kept.
   */
  lemma BroadcastShape(h: HubView, sender: string, mtype: MessageType, content: Obj,
                       exclude: seq<string>, names: seq<string>, n: nat)
    ensures var r := BroadcastOver(h, sender, mtype, content, exclude, names, n);
      && r.1 == BroadcastSent(h, sender, mtype, content, Addressees(names, sender, exclude), n)
      && r.0 == TruthyReplies(h, r.1)
  {
    BroadcastSentShape(h, sender, mtype, content, exclude, names, n);
    BroadcastRepliesShape(h, sender, mtype, content, exclude, names, n);
  }

  lemma {:induction false} BroadcastSentShape(h: HubView, sender: string, mtype: MessageType, content: Obj,
                                              exclude: seq<string>, names: seq<string>, n: nat)
    ensures BroadcastOver(h, sender, mtype, content, exclude, names, n).1
         == BroadcastSent(h, sender, mtype, content, Addressees(names, sender, exclude), n)
    decreases |names|
  {
    if names != [] {
      var init := names[..|names| - 1];
      var name := names[|names| - 1];
      BroadcastSentShape(h, sender, mtype, content, exclude, init, n);
      var prev := BroadcastOver(h, sender, mtype, content, exclude, init, n);
      var addrs := Addressees(init, sender, exclude);
      assert prev.1 == BroadcastSent(h, sender, mtype, content, addrs, n);
      OverLast(h, sender, mtype, content, exclude, names, n);
      if !(name == sender || name in exclude) {
        BroadcastSnocSent(h, sender, mtype, content, exclude, name, n, prev);
        BroadcastSentSnoc(h, sender, mtype, content, addrs, name, n);
      } else {
        assert addrs + [] == addrs;
      }
    }
  }

  /** The last step of `BroadcastOver` and of `Addressees`, named. */
  lemma OverLast(h: HubView, sender: string, mtype: MessageType, content: Obj,
                 exclude: seq<string>, names: seq<string>, n: nat)
    requires names != []
    ensures var init := names[..|names| - 1];
      var name := names[|names| - 1];
      && BroadcastOver(h, sender, mtype, content, exclude, names, n)
         == BroadcastSnoc(h, sender, mtype, content, exclude, name, n,
                          BroadcastOver(h, sender, mtype, content, exclude, init, n))
      && Addressees(names, sender, exclude)
         == Addressees(init, sender, exclude) + (if name == sender || name in exclude then [] else [name])
  {
  }

  lemma {:induction false} BroadcastRepliesShape(h: HubView, sender: string, mtype: MessageType, content: Obj,
                                                 exclude: seq<string>, names: seq<string>, n: nat)
    ensures var r := BroadcastOver(h, sender, mtype, content, exclude, names, n);
      r.0 == TruthyReplies(h, r.1)
    decreases |names|
  {
    if names != [] {
      var init := names[..|names| - 1];
      var name := names[|names| - 1];
      BroadcastRepliesShape(h, sender, mtype, content, exclude, init, n);
      var prev := BroadcastOver(h, sender, mtype, content, exclude, init, n);
      OverLast(h, sender, mtype, content, exclude, names, n);
      if !(name == sender || name in exclude) {
        var m := NewMessage(sender, name, mtype, content, None, h.clock(n + |prev.1|));
        BroadcastSnocSent(h, sender, mtype, content, exclude, name, n, prev);
        TruthyRepliesSnoc(h, prev.1, m);
      }
    }
  }



  // ---------------------------------------------------------------------
  // Feedback integration

  /** The value a suggestion leaves behind: the mean of two numbers, else the suggestion. */
  function Merge(current: Value, suggestion: Value): (r: Value)
    ensures IsNumber(current) && IsNumber(suggestion) ==>
      r.VReal? && r.r == (AsReal(current) + AsReal(suggestion)) / 2.0
    ensures !(IsNumber(current) && IsNumber(suggestion)) ==> r == suggestion
  {
    if IsNumber(current) && IsNumber(suggestion) then VReal((AsReal(current) + AsReal(suggestion)) / 2.0)
    else suggestion
  }

  /** Applies the suggestions for `keys` (in order) to the proposal. */
  function ApplySuggestions(p: Obj, suggestions: Obj, keys: seq<string>): (r: Obj)
    ensures r.keys == p.keys && r.m.Keys == p.m.Keys
    decreases |keys|
  {
    if keys == [] then p
    else
      var q := ApplySuggestions(p, suggestions, keys[..|keys| - 1]);
      var k := keys[|keys| - 1];
      if k in q.m && k in suggestions.m then q.Put(k, Merge(q.m[k], suggestions.m[k])) else q
  }

  /** The "suggestions" of one feedback entry (`{}` when it has none). */
  function SuggestionsOf(feedback: Value): (r: Obj)
    ensures r != Empty() ==> feedback.VDict? && "suggestions" in feedback.d.m && feedback.d.m["suggestions"] == VDict(r)
  {
    if feedback.VDict? && "suggestions" in feedback.d.m && feedback.d.m["suggestions"].VDict?
    then feedback.d.m["suggestions"].d
    else Empty()
  }

  function ApplyFeedback(p: Obj, feedback: Value): (r: Obj)
    ensures r.keys == p.keys && r.m.Keys == p.m.Keys
  {
    var s := SuggestionsOf(feedback);
    ApplySuggestions(p, s, s.keys)
  }

  /** `_integrate_feedback(proposal, feedback_list)` */
  function Integrated(p: Obj, feedbacks: seq<Value>): (r: Obj)
    ensures r.keys == p.keys && r.m.Keys == p.m.Keys
    decreases |feedbacks|
  {
    if feedbacks == [] then p
    else ApplyFeedback(Integrated(p, feedbacks[..|feedbacks| - 1]), feedbacks[|feedbacks| - 1])
  }

  predicate Suggests(feedback: Value, k: string) {
    k in SuggestionsOf(feedback).m
  }

  /** A key that no feedback suggests keeps its value. */
  lemma {:induction false} UnsuggestedKeyUnchanged(p: Obj, feedbacks: seq<Value>, k: string)
    requires k in p.m
    requires forall i :: 0 <= i < |feedbacks| ==> !Suggests(feedbacks[i], k)
    ensures Integrated(p, feedbacks).m[k] == p.m[k]
    decreases |feedbacks|
  {
    if feedbacks != [] {
      var init := feedbacks[..|feedbacks| - 1];
      forall i | 0 <= i < |init| ensures !Suggests(init[i], k) {
        assert init[i] == feedbacks[i];
      }
      UnsuggestedKeyUnchanged(p, init, k);
      var s := SuggestionsOf(feedbacks[|feedbacks| - 1]);
      ApplySuggestionsOther(Integrated(p, init), s, s.keys, k);
    }
  }

  lemma {:induction false} ApplySuggestionsOther(p: Obj, s: Obj, keys: seq<string>, k: string)
    requires k in p.m && (k !in keys || k !in s.m)
    ensures ApplySuggestions(p, s, keys).m[k] == p.m[k]
    decreases |keys|
  {
    if keys != [] {
      ApplySuggestionsOther(p, s, keys[..|keys| - 1], k);
    }
  }

  /** One suggestion for a present key: the key's new value is `Merge(old, suggestion)`. */
  lemma {:induction false} ApplySuggestionsHit(p: Obj, s: Obj, keys: seq<string>, k: string)
    requires k in p.m && k in keys && k in s.m
    requires forall i, j :: 0 <= i < j < |keys| ==> keys[i] != keys[j]
    ensures ApplySuggestions(p, s, keys).m[k] == Merge(p.m[k], s.m[k])
    decreases |keys|
  {
    var init := keys[..|keys| - 1];
    if keys[|keys| - 1] == k {
      assert k !in init;
      ApplySuggestionsOther(p, s, init, k);
    } else {
      assert k in init;
      ApplySuggestionsHit(p, s, init, k);
    }
  }

  /**
   * If the last feedback suggests a value for a key of the proposal, that key
   * ends up as the merge of the value before it and the suggestion: a
   * non-number suggestion overwrites, and two numbers meet half way.
   */
  lemma LastFeedbackDecides(p: Obj, feedbacks: seq<Value>, k: string)
    requires |feedbacks| > 0 && k in p.m && Suggests(feedbacks[|feedbacks| - 1], k)
    requires SuggestionsOf(feedbacks[|feedbacks| - 1]).Valid()
    ensures var before := Integrated(p, feedbacks[..|feedbacks| - 1]);
      var s := SuggestionsOf(feedbacks[|feedbacks| - 1]);
      Integrated(p, feedbacks).m[k] == Merge(before.m[k], s.m[k])
  {
    var s := SuggestionsOf(feedbacks[|feedbacks| - 1]);
    ApplySuggestionsHit(Integrated(p, feedbacks[..|feedbacks| - 1]), s, s.keys, k);
  }

  function Abs(x: real): real {
    if x < 0.0 then -x else x
  }

  /** Averaging with a suggestion halves the distance to it. */
  lemma MergeHalvesDistance(current: Value, suggestion: Value)
    requires IsNumber(current) && IsNumber(suggestion)
    ensures Abs(AsReal(Merge(current, suggestion)) - AsReal(suggestion))
         == Abs(AsReal(current) - AsReal(suggestion)) / 2.0
    ensures Abs(AsReal(Merge(current, suggestion)) - AsReal(suggestion))
         <= Abs(AsReal(current) - AsReal(suggestion))
  {
  }

  // ---------------------------------------------------------------------
  // Negotiation

  const MaxRounds: int := 3

  /** The content of a negotiation message. */
  function NegotiationContent(topic: string, proposal: Obj, round: int): Obj {
    Dict(["topic", "proposal", "round"],
         map["topic" := VStr(topic), "proposal" := VDict(proposal), "round" := VInt(round)])
  }

  /**
   * One round's messages and the truthy responses keyed by participant,
   * over the participants `ps`, the first message taking log position `n`.
   */
  function Collect(h: HubView, initiator: string, ps: seq<string>, topic: string,
                   proposal: Obj, round: int, n: nat): (r: (Dict<string, Obj>, seq<AgentMessage>))
    ensures r.0.Valid()
    decreases |ps|
  {
    if ps == [] then (Empty(), [])
    else
      var prev := Collect(h, initiator, ps[..|ps| - 1], topic, proposal, round, n);
      CollectSnoc(h, initiator, ps[|ps| - 1], topic, proposal, round, n, prev)
  }

  /** Asking participant `p` after the participants that gave `prev`. */
  function CollectSnoc(h: HubView, initiator: string, p: string, topic: string, proposal: Obj, round: int, n: nat,
                       prev: (Dict<string, Obj>, seq<AgentMessage>)): (r: (Dict<string, Obj>, seq<AgentMessage>))
    requires prev.0.Valid()
    ensures r.0.Valid()
    ensures r.0.m.Keys <= prev.0.m.Keys + {p}
  {
    var (responses, sent) := prev;
    if p !in h.agents.m then prev
    else
      var m := NewMessage(initiator, p, Negotiation, NegotiationContent(topic, proposal, round), None,
                          h.clock(n + |sent|));
      var resp := Deliver(h, m);
      if resp.Some? && TruthyObj(resp.value) then
        PutValid(responses, p, resp.value);
        (responses.Put(p, resp.value), sent + [m])
      else (responses, sent + [m])
  }

  lemma CollectStep(h: HubView, initiator: string, ps: seq<string>, i: nat, topic: string, proposal: Obj, round: int, n: nat)
    requires i < |ps|
    ensures Collect(h, initiator, ps[..i + 1], topic, proposal, round, n)
         == CollectSnoc(h, initiator, ps[i], topic, proposal, round, n, Collect(h, initiator, ps[..i], topic, proposal, round, n))
  {
    assert ps[..i + 1][..i] == ps[..i];
  }

  lemma CollectSnocSkipped(h: HubView, initiator: string, p: string, topic: string, proposal: Obj, round: int, n: nat,
                           prev: (Dict<string, Obj>, seq<AgentMessage>))
    requires prev.0.Valid() && p !in h.agents.m
    ensures CollectSnoc(h, initiator, p, topic, proposal, round, n, prev) == prev
  {
  }

  lemma CollectSnocAsked(h: HubView, initiator: string, p: string, topic: string, proposal: Obj, round: int, n: nat,
                         prev: (Dict<string, Obj>, seq<AgentMessage>))
    requires prev.0.Valid() && p in h.agents.m
    ensures var m := NewMessage(initiator, p, Negotiation, NegotiationContent(topic, proposal, round), None,
                                h.clock(n + |prev.1|));
      var resp := Deliver(h, m);
      CollectSnoc(h, initiator, p, topic, proposal, round, n, prev)
        == (if resp.Some? && TruthyObj(resp.value) then prev.0.Put(p, resp.value) else prev.0, prev.1 + [m])
  {
  }

  /** `resp.get("status") == "agree" or resp.get("agreement", False)` */
  predicate Agrees(resp: Obj) {
    ("status" in resp.m && resp.m["status"] == VStr("agree"))
    || ("agreement" in resp.m && Truthy(resp.m["agreement"]))
  }

  predicate AllAgree(responses: Dict<string, Obj>) {
    forall k :: k in responses.m ==> Agrees(responses.m[k])
  }

  function FeedbackOf(resp: Obj): Value {
    if "feedback" in resp.m then resp.m["feedback"] else VDict(Empty())
  }

  function FeedbackList(responses: Dict<string, Obj>): (r: seq<Value>)
    requires responses.Valid()
    ensures |r| == |responses.keys|
  {
    var vs := responses.Values();
    seq(|vs|, i requires 0 <= i < |vs| => FeedbackOf(vs[i]))
  }

  /** The negotiation loop's variables. */
  datatype NegState = NegState(
    round: int,
    consensus: bool,
    broke: bool,
    proposal: Obj,
    responses: Dict<string, Obj>,
    sent: seq<AgentMessage>)

  /** `negotiate`'s result dict. */
  datatype NegotiationResult = NegotiationResult(
    consensus: bool,
    finalProposal: Obj,
    rounds: int,
    responses: Dict<string, Obj>)

  /** One pass of the loop body, the log holding `n` messages before the negotiation. */
  function RoundStep(h: HubView, initiator: string, ps: seq<string>, topic: string, n: nat, st: NegState): (r: NegState)
    requires !st.consensus && !st.broke
    ensures r.round == st.round || r.round == st.round + 1
    ensures r.round == st.round + 1 <==> !r.consensus && !r.broke
  {
    var c := Collect(h, initiator, ps, topic, st.proposal, st.round, n + |st.sent|);
    var responses := c.0;
    var sent := c.1;
    if responses.Size() == |ps| then
      if AllAgree(responses) then st.(consensus := true, responses := responses, sent := st.sent + sent)
      else st.(proposal := Integrated(st.proposal, FeedbackList(responses)), round := st.round + 1,
               responses := responses, sent := st.sent + sent)
    else st.(broke := true, responses := responses, sent := st.sent + sent)
  }

  predicate Continues(st: NegState) {
    st.round <= MaxRounds && !st.consensus && !st.broke
  }

  /** Runs the loop to its end from `st`. */
  function NegotiateFrom(h: HubView, initiator: string, ps: seq<string>, topic: string, n: nat, st: NegState): (r: NegState)
    ensures !Continues(r)
    decreases 4 - st.round, if Continues(st) then 1 else 0
  {
    if Continues(st) then NegotiateFrom(h, initiator, ps, topic, n, RoundStep(h, initiator, ps, topic, n, st))
    else st
  }

  function InitialNegState(proposal: Obj): NegState {
    NegState(1, false, false, proposal, Empty(), [])
  }

  /** What `negotiate(initiator, participants, topic, proposals)` returns and logs. */
  function NegotiateSpec(h: HubView, initiator: string, ps: seq<string>, topic: string, proposal: Obj, n: nat): NegState {
    NegotiateFrom(h, initiator, ps, topic, n, InitialNegState(proposal))
  }

  /** With no participants the first round reaches consensus. */
  lemma NoParticipantsAgree(h: HubView, initiator: string, topic: string, proposal: Obj, n: nat)
    ensures var r := NegotiateSpec(h, initiator, [], topic, proposal, n);
      r.consensus && r.round == 1 && r.proposal == proposal && r.sent == []
  {
    var st := InitialNegState(proposal);
    var empty: Dict<string, Obj> := Empty();
    assert Collect(h, initiator, [], topic, proposal, 1, n) == (empty, []);
    assert empty.Size() == 0;
    var st1 := RoundStep(h, initiator, [], topic, n, st);
    assert st1 == st.(consensus := true, responses := empty, sent := []);
    assert NegotiateFrom(h, initiator, [], topic, n, st) == NegotiateFrom(h, initiator, [], topic, n, st1);
  }

  /** Rounds that end with every participant answering and some disagreeing. */
  predicate FullDisagreement(h: HubView, initiator: string, ps: seq<string>, topic: string, n: nat, st: NegState) {
    var (responses, _) := Collect(h, initiator, ps, topic, st.proposal, st.round, n + |st.sent|);
    responses.Size() == |ps| && !AllAgree(responses)
  }

  /** Each round either stops the loop (breaking or agreeing) or moves to the next round number. */
  lemma RoundOutcome(h: HubView, initiator: string, ps: seq<string>, topic: string, n: nat, st: NegState)
    requires Continues(st)
    ensures var r := RoundStep(h, initiator, ps, topic, n, st);
      && (FullDisagreement(h, initiator, ps, topic, n, st) <==> r.round == st.round + 1)
      && (r.consensus ==> r.round == st.round && r.proposal == st.proposal && AllAgree(r.responses))
      && (r.broke ==> r.round == st.round && r.responses.Size() != |ps|)
  {
  }

  /**
   * Three fully answered rounds without consensus end the loop with
   * `rounds == 4` and no consensus.
   */
  lemma ThreeFailedRoundsGiveFour(h: HubView, initiator: string, ps: seq<string>, topic: string, proposal: Obj, n: nat,
                                  s1: NegState, s2: NegState)
    requires FullDisagreement(h, initiator, ps, topic, n, InitialNegState(proposal))
    requires s1 == RoundStep(h, initiator, ps, topic, n, InitialNegState(proposal))
    requires FullDisagreement(h, initiator, ps, topic, n, s1)
    requires !s1.consensus && !s1.broke
    requires s2 == RoundStep(h, initiator, ps, topic, n, s1)
    requires FullDisagreement(h, initiator, ps, topic, n, s2)
    ensures var r := NegotiateSpec(h, initiator, ps, topic, proposal, n);
      r.round == 4 && !r.consensus && !r.broke
  {
    var s0 := InitialNegState(proposal);
    RoundOutcome(h, initiator, ps, topic, n, s0);
    RoundOutcome(h, initiator, ps, topic, n, s1);
    assert Continues(s2);
    RoundOutcome(h, initiator, ps, topic, n, s2);
    var s3 := RoundStep(h, initiator, ps, topic, n, s2);
    assert NegotiateFrom(h, initiator, ps, topic, n, s0) == NegotiateFrom(h, initiator, ps, topic, n, s1);
    assert NegotiateFrom(h, initiator, ps, topic, n, s1) == NegotiateFrom(h, initiator, ps, topic, n, s2);
    assert NegotiateFrom(h, initiator, ps, topic, n, s2) == NegotiateFrom(h, initiator, ps, topic, n, s3);
  }

  /** An unregistered participant makes every round break, so the first round ends it without consensus. */
  lemma UnregisteredParticipantBreaks(h: HubView, initiator: string, ps: seq<string>, topic: string, proposal: Obj, n: nat, p: string)
    requires p in ps && p !in h.agents.m
    ensures var r := NegotiateSpec(h, initiator, ps, topic, proposal, n);
      !r.consensus && r.round == 1 && r.broke
  {
    var st := InitialNegState(proposal);
    var (responses, sent) := Collect(h, initiator, ps, topic, proposal, 1, n);
    CollectOnlyRegistered(h, initiator, ps, topic, proposal, 1, n);
    SizeBelow(responses, ps, p);
    var st1 := RoundStep(h, initiator, ps, topic, n, st);
    assert st1 == st.(broke := true, responses := responses, sent := sent);
    assert NegotiateFrom(h, initiator, ps, topic, n, st) == NegotiateFrom(h, initiator, ps, topic, n, st1);
  }

  lemma {:induction false} CollectOnlyRegistered(h: HubView, initiator: string, ps: seq<string>, topic: string,
                                                 proposal: Obj, round: int, n: nat)
    ensures forall k :: k in Collect(h, initiator, ps, topic, proposal, round, n).0.m ==> k in h.agents.m && k in ps
    decreases |ps|
  {
    if ps != [] {
      CollectOnlyRegistered(h, initiator, ps[..|ps| - 1], topic, proposal, round, n);
    }
  }

  /** A valid dict whose keys come from `ps` but miss one element of it is smaller than `ps`. */
  lemma SizeBelow<V>(d: Dict<string, V>, ps: seq<string>, p: string)
    requires d.Valid() && p in ps && p !in d.m
    requires forall k :: k in d.m ==> k in ps
    ensures d.Size() < |ps|
  {
    var ks := set k | k in d.keys;
    var all := set k | k in ps;
    assert ks < all by {
      assert p in all && p !in ks;
    }
    DistinctCard(d.keys);
    SeqSetCard(ps);
    SubsetCard(ks, all);
  }

  lemma {:induction false} DistinctCard(s: seq<string>)
    requires Distinct(s)
    ensures |set k | k in s| == |s|
  {
    if s != [] {
      var t := s[..|s| - 1];
      assert Distinct(t);
      DistinctCard(t);
      assert (set k | k in s) == (set k | k in t) + {s[|s| - 1]};
      assert s[|s| - 1] !in t;
    }
  }

  lemma {:induction false} SeqSetCard(s: seq<string>)
    ensures |set k | k in s| <= |s|
  {
    if s != [] {
      var t := s[..|s| - 1];
      SeqSetCard(t);
      assert (set k | k in s) == (set k | k in t) + {s[|s| - 1]};
    }
  }

  lemma SubsetCard(a: set<string>, b: set<string>)
    requires a < b
    ensures |a| < |b|
  {
    var x :| x in b && x !in a;
    SubsetCardLe(a, b - {x});
  }

  lemma {:induction false} SubsetCardLe(a: set<string>, b: set<string>)
    requires a <= b
    ensures |a| <= |b|
    decreases a
  {
    if a != {} {
      var y :| y in a;
      SubsetCardLe(a - {y}, b - {y});
    }
  }

  // ---------------------------------------------------------------------
  // History

  /** A name argument that Python treats as "no filter" (`None` or `""`). */
  predicate NoNameFilter(agentName: Option<string>) {
    agentName.None? || agentName.value == ""
  }

  predicate Selected(m: AgentMessage, agentName: Option<string>, mtype: Option<MessageType>) {
    (NoNameFilter(agentName) || m.sender == agentName.value || m.receiver == agentName.value)
    && (mtype.None? || m.mtype == mtype.value)
  }

  /** `get_message_history(agent_name, message_type)` over a log. */
  function FilterHistory(log: seq<AgentMessage>, agentName: Option<string>, mtype: Option<MessageType>): (r: seq<AgentMessage>)
    ensures |r| <= |log|
  {
    if log == [] then []
    else (FilterHistory(log[..|log| - 1], agentName, mtype)
          + (if Selected(log[|log| - 1], agentName, mtype) then [log[|log| - 1]] else []))
  }

  /** A message comes back exactly when it is in the log and passes both filters. */
  lemma {:induction false} FilterMembers(log: seq<AgentMessage>, agentName: Option<string>, mtype: Option<MessageType>)
    ensures forall m :: m in FilterHistory(log, agentName, mtype) <==> m in log && Selected(m, agentName, mtype)
    decreases |log|
  {
    if log != [] {
      FilterMembers(log[..|log| - 1], agentName, mtype);
      assert log == log[..|log| - 1] + [log[|log| - 1]];
    }
  }

  /** Filtering keeps log order: it commutes with appending to the log. */
  lemma {:induction false} FilterAppend(a: seq<AgentMessage>, b: seq<AgentMessage>, agentName: Option<string>, mtype: Option<MessageType>)
    ensures FilterHistory(a + b, agentName, mtype) == FilterHistory(a, agentName, mtype) + FilterHistory(b, agentName, mtype)
    decreases |b|
  {
    if b == [] {
      assert a + b == a;
    } else {
      var b' := b[..|b| - 1];
      var x := b[|b| - 1];
      assert (a + b)[..|a + b| - 1] == a + b';
      assert (a + b)[|a + b| - 1] == x;
      FilterAppend(a, b', agentName, mtype);
      var tail := if Selected(x, agentName, mtype) then [x] else [];
      calc {
        FilterHistory(a + b, agentName, mtype);
        FilterHistory(a + b', agentName, mtype) + tail;
        FilterHistory(a, agentName, mtype) + FilterHistory(b', agentName, mtype) + tail;
        FilterHistory(a, agentName, mtype) + (FilterHistory(b', agentName, mtype) + tail);
      }
    }
  }

  /** Without filters the whole log comes back. */
  lemma {:induction false} NoFilterIsWholeLog(log: seq<AgentMessage>)
    ensures FilterHistory(log, None, None) == log
  {
    if log != [] {
      NoFilterIsWholeLog(log[..|log| - 1]);
    }
  }

  // ---------------------------------------------------------------------
  // The hub object

  class CommunicationHub {
    const dispatch: (Target, AgentMessage) -> HandlerOutcome
    const clock: nat -> Stamp
    var agents: Dict<string, AgentInstance>
    var handlers: map<string, map<MessageType, HandlerId>>
    var history: seq<AgentMessage>

    constructor (dispatch: (Target, AgentMessage) -> HandlerOutcome, clock: nat -> Stamp)
      ensures this.dispatch == dispatch && this.clock == clock
      ensures agents == Empty() && handlers == map[] && history == []
    {
      this.dispatch := dispatch;
      this.clock := clock;
      agents := Empty();
      handlers := map[];
      history := [];
    }

    function View(): HubView
      reads this
    {
      HubView(agents, handlers, dispatch, clock)
    }

    /** `register_agent`: binds the name and resets its handler table. */
    method RegisterAgent(name: string, instance: AgentInstance)
      modifies this
      ensures agents == old(agents).Put(name, instance)
      ensures handlers == old(handlers)[name := map[]]
      ensures history == old(history)
    {
      agents := agents.Put(name, instance);
      handlers := handlers[name := map[]];
    }

    /** `register_message_handler`: one handler per (agent, type), the last one wins. */
    method RegisterMessageHandler(name: string, mtype: MessageType, handler: HandlerId)
      modifies this
      ensures handlers == old(handlers)[name := HandlersOf(old(View()), name)[mtype := handler]]
      ensures agents == old(agents) && history == old(history)
    {
      var table := if name in handlers then handlers[name] else map[];
      handlers := handlers[name := table[mtype := handler]];
    }

    /** `get_message_history(agent_name, message_type)` */
    function GetMessageHistory(agentName: Option<string>, mtype: Option<MessageType>): (r: seq<AgentMessage>)
      reads this
      ensures forall m :: m in r <==> m in history && Selected(m, agentName, mtype)
      ensures agentName.None? && mtype.None? ==> r == history
    {
      FilterMembers(history, agentName, mtype);
      NoFilterIsWholeLog(history);
      FilterHistory(history, agentName, mtype)
    }

    /** `send_message`: logs the message first, then delivers it. */
    method SendMessage(m: AgentMessage) returns (r: Option<Obj>)
      modifies this
      ensures history == old(history) + [m]
      ensures r == Deliver(HubView(old(agents), old(handlers), dispatch, clock), m)
      ensures agents == old(agents) && handlers == old(handlers)
    {
      history := history + [m];
      r := Deliver(View(), m);
    }

    /**
     * `broadcast_message`: one message per registered agent other than the
     * sender and the excluded, in registration order, keeping the truthy
     * responses.
     */
    method BroadcastMessage(sender: string, mtype: MessageType, content: Obj, exclude: seq<string>)
      returns (replies: seq<BroadcastReply>)
      modifies this
      ensures agents == old(agents) && handlers == old(handlers)
      ensures var (rs, sent) := BroadcastOver(old(View()), sender, mtype, content, exclude, old(agents.keys), |old(history)|);
        replies == rs && history == old(history) + sent
    {
      var names := agents.keys;
      var h := View();
      var n := |history|;
      replies := [];
      ghost var sent: seq<AgentMessage> := [];
      for i := 0 to |names|
        invariant agents == old(agents) && handlers == old(handlers) && View() == h
        invariant BroadcastOver(h, sender, mtype, content, exclude, names[..i], n) == (replies, sent)
        invariant history == old(history) + sent && n == |old(history)|
      {
        BroadcastOverStep(h, sender, mtype, content, exclude, names, i, n);
        replies, sent := BroadcastTo(h, n, old(history), sender, names[i], mtype, content, exclude, replies, sent);
      }
      assert names[..|names|] == names;
    }

    /** One pass of `broadcast_message`'s loop body, for agent `name`. */
    method BroadcastTo(ghost h: HubView, ghost n: nat, ghost hist0: seq<AgentMessage>,
                       sender: string, name: string, mtype: MessageType, content: Obj, exclude: seq<string>,
                       replies: seq<BroadcastReply>, ghost sent: seq<AgentMessage>)
      returns (replies': seq<BroadcastReply>, ghost sent': seq<AgentMessage>)
      requires h == HubView(agents, handlers, dispatch, clock)
      requires history == hist0 + sent && |hist0| == n
      modifies this
      ensures agents == old(agents) && handlers == old(handlers)
      ensures (replies', sent') == BroadcastSnoc(h, sender, mtype, content, exclude, name, n, (replies, sent))
      ensures history == hist0 + sent'
    {
      if name != sender && name !in exclude {
        var m := NewMessage(sender, name, mtype, content, None, clock(|history|));
        BroadcastSnocSent(h, sender, mtype, content, exclude, name, n, (replies, sent));
        var resp := SendMessage(m);
        replies' := replies + (if resp.Some? && TruthyObj(resp.value) then [BroadcastReply(name, resp.value)] else []);
        sent' := sent + [m];
      } else {
        replies', sent' := replies, sent;
      }
    }

    /** `_integrate_feedback`: works on a copy, so the proposal passed in is not changed. */
    method IntegrateFeedback(proposal: Obj, feedbacks: seq<Value>) returns (adjusted: Obj)
      ensures adjusted == Integrated(proposal, feedbacks)
    {
      adjusted := proposal;
      for i := 0 to |feedbacks|
        invariant adjusted == Integrated(proposal, feedbacks[..i])
      {
        assert feedbacks[..i + 1][..i] == feedbacks[..i];
        adjusted := ApplyFeedbackEntry(adjusted, feedbacks[i]);
      }
      assert feedbacks[..|feedbacks|] == feedbacks;
    }

    /** One feedback entry of `_integrate_feedback`: its suggestions, in their order. */
    method ApplyFeedbackEntry(proposal: Obj, feedback: Value) returns (adjusted: Obj)
      ensures adjusted == ApplyFeedback(proposal, feedback)
    {
      var suggestions := SuggestionsOf(feedback);
      var keys := suggestions.keys;
      adjusted := proposal;
      for j := 0 to |keys|
        invariant adjusted == ApplySuggestions(proposal, suggestions, keys[..j])
      {
        assert keys[..j + 1][..j] == keys[..j];
        var key := keys[j];
        if key in adjusted.m && key in suggestions.m {
          adjusted := adjusted.Put(key, Merge(adjusted.m[key], suggestions.m[key]));
        }
      }
      assert keys[..|keys|] == keys;
    }

    /** One round of `negotiate`: the proposal goes to every registered participant, in order. */
    method NegotiationRound(initiator: string, participants: seq<string>, topic: string, proposal: Obj, round: int)
      returns (responses: Dict<string, Obj>)
      modifies this
      ensures agents == old(agents) && handlers == old(handlers)
      ensures var (rs, ms) := Collect(old(View()), initiator, participants, topic, proposal, round, |old(history)|);
        responses == rs && history == old(history) + ms
    {
      var h := HubView(agents, handlers, dispatch, clock);
      var n := |history|;
      responses := Empty();
      ghost var sent: seq<AgentMessage> := [];
      for i := 0 to |participants|
        invariant h == HubView(agents, handlers, dispatch, clock) && agents == old(agents) && handlers == old(handlers)
        invariant Collect(h, initiator, participants[..i], topic, proposal, round, n) == (responses, sent)
        invariant history == old(history) + sent && n == |old(history)|
      {
        CollectStep(h, initiator, participants, i, topic, proposal, round, n);
        responses, sent := AskParticipant(h, n, old(history), initiator, participants[i], topic, proposal, round, responses, sent);
      }
      assert participants[..|participants|] == participants;
    }

    /** The body of `negotiate`'s inner loop for participant `p`. */
    method AskParticipant(ghost h: HubView, ghost n: nat, ghost hist0: seq<AgentMessage>,
                          initiator: string, p: string, topic: string, proposal: Obj, round: int,
                          responses: Dict<string, Obj>, ghost sent: seq<AgentMessage>)
      returns (responses': Dict<string, Obj>, ghost sent': seq<AgentMessage>)
      requires h == HubView(agents, handlers, dispatch, clock)
      requires responses.Valid() && history == hist0 + sent && |hist0| == n
      modifies this
      ensures agents == old(agents) && handlers == old(handlers)
      ensures (responses', sent') == CollectSnoc(h, initiator, p, topic, proposal, round, n, (responses, sent))
      ensures history == hist0 + sent'
    {
      if p in agents.m {
        var m := NewMessage(initiator, p, Negotiation, NegotiationContent(topic, proposal, round), None, clock(|history|));
        CollectSnocAsked(h, initiator, p, topic, proposal, round, n, (responses, sent));
        var resp := SendMessage(m);
        responses' := if resp.Some? && TruthyObj(resp.value) then responses.Put(p, resp.value) else responses;
        sent' := sent + [m];
      } else {
        CollectSnocSkipped(h, initiator, p, topic, proposal, round, n, (responses, sent));
        responses', sent' := responses, sent;
      }
    }

    /** One pass of `negotiate`'s loop body: ask everyone, then stop, agree, or integrate the feedback. */
    method PlayRound(initiator: string, participants: seq<string>, topic: string,
                     ghost n: nat, ghost st: NegState, ghost hist0: seq<AgentMessage>, proposal: Obj, round: int)
      returns (consensus: bool, broke: bool, nextProposal: Obj, nextRound: int, responses: Dict<string, Obj>)
      requires Continues(st) && st.proposal == proposal && st.round == round
      requires history == hist0 + st.sent && |hist0| == n
      modifies this
      ensures agents == old(agents) && handlers == old(handlers)
      ensures var r := RoundStep(old(View()), initiator, participants, topic, n, st);
        && r == NegState(nextRound, consensus, broke, nextProposal, responses, r.sent)
        && history == hist0 + r.sent
    {
      ghost var h := View();
      ghost var collected := Collect(h, initiator, participants, topic, proposal, round, n + |st.sent|);
      responses := NegotiationRound(initiator, participants, topic, proposal, round);
      assert history == hist0 + (st.sent + collected.1);
      consensus, broke, nextProposal, nextRound := false, false, proposal, round;
      if responses.Size() != |participants| {
        RoundBreaks(h, initiator, participants, topic, n, st);
        broke := true;
      } else if AllAgreeExec(responses) {
        RoundAgrees(h, initiator, participants, topic, n, st);
        consensus := true;
      } else {
        RoundIntegrates(h, initiator, participants, topic, n, st);
        var feedbacks := FeedbackList(responses);
        nextProposal := IntegrateFeedback(proposal, feedbacks);
        nextRound := round + 1;
      }
    }

    /** `negotiate` */
    method Negotiate(initiator: string, participants: seq<string>, topic: string, proposal: Obj)
      returns (result: NegotiationResult)
      modifies this
      ensures agents == old(agents) && handlers == old(handlers)
      ensures var st := NegotiateSpec(old(View()), initiator, participants, topic, proposal, |old(history)|);
        && result == NegotiationResult(st.consensus, st.proposal, st.round, st.responses)
        && history == old(history) + st.sent
    {
      var h := View();
      var n := |history|;
      var round := 1;
      var consensus := false;
      var broke := false;
      var finalProposal := proposal;
      var responses: Dict<string, Obj> := Empty();
      ghost var st := InitialNegState(proposal);
      while round <= MaxRounds && !consensus && !broke
        invariant View() == h
        invariant st == NegState(round, consensus, broke, finalProposal, responses, st.sent)
        invariant history == old(history) + st.sent
        invariant NegotiateFrom(h, initiator, participants, topic, n, st)
               == NegotiateSpec(h, initiator, participants, topic, proposal, n)
        decreases 4 - round, if consensus || broke then 0 else 1
      {
        NegotiateUnfold(h, initiator, participants, topic, n, st);
        ghost var next := RoundStep(h, initiator, participants, topic, n, st);
        consensus, broke, finalProposal, round, responses := PlayRound(initiator, participants, topic, n, st, old(history), finalProposal, round);
        st := next;
      }
      result := NegotiationResult(consensus, finalProposal, round, responses);
    }
  }

  /** A continuing loop state runs on as its next round does. */
  lemma NegotiateUnfold(h: HubView, initiator: string, ps: seq<string>, topic: string, n: nat, st: NegState)
    requires Continues(st)
    ensures NegotiateFrom(h, initiator, ps, topic, n, st)
         == NegotiateFrom(h, initiator, ps, topic, n, RoundStep(h, initiator, ps, topic, n, st))
  {
  }

  /** A round in which someone did not answer ends the loop. */
  lemma RoundBreaks(h: HubView, initiator: string, ps: seq<string>, topic: string, n: nat, st: NegState)
    requires Continues(st)
    requires Collect(h, initiator, ps, topic, st.proposal, st.round, n + |st.sent|).0.Size() != |ps|
    ensures var (responses, sent) := Collect(h, initiator, ps, topic, st.proposal, st.round, n + |st.sent|);
      RoundStep(h, initiator, ps, topic, n, st) == st.(broke := true, responses := responses, sent := st.sent + sent)
  {
  }

  /** A fully answered round in which everyone agrees reaches consensus. */
  lemma RoundAgrees(h: HubView, initiator: string, ps: seq<string>, topic: string, n: nat, st: NegState)
    requires Continues(st)
    requires var (responses, _) := Collect(h, initiator, ps, topic, st.proposal, st.round, n + |st.sent|);
      responses.Size() == |ps| && AllAgree(responses)
    ensures var (responses, sent) := Collect(h, initiator, ps, topic, st.proposal, st.round, n + |st.sent|);
      RoundStep(h, initiator, ps, topic, n, st) == st.(consensus := true, responses := responses, sent := st.sent + sent)
  {
  }

  /** A first round in which every participant answers and agrees ends in consensus. */
  lemma FirstRoundStep(h: HubView, initiator: string, ps: seq<string>, topic: string, n: nat, st: NegState)
    requires Continues(st) && st.sent == []
    requires var c := Collect(h, initiator, ps, topic, st.proposal, st.round, n).0; c.Size() == |ps| && AllAgree(c)
    ensures var r := RoundStep(h, initiator, ps, topic, n, st);
      r.consensus && !r.broke && r.round == st.round && r.proposal == st.proposal
      && r.responses == Collect(h, initiator, ps, topic, st.proposal, st.round, n).0
  {
    RoundAgrees(h, initiator, ps, topic, n, st);
  }

  /** A negotiation whose first round ends it returns that round's state. */
  lemma OneRound(h: HubView, initiator: string, ps: seq<string>, topic: string, n: nat, st: NegState)
    requires Continues(st) && !Continues(RoundStep(h, initiator, ps, topic, n, st))
    ensures NegotiateFrom(h, initiator, ps, topic, n, st) == RoundStep(h, initiator, ps, topic, n, st)
  {
  }

  /** A fully answered round with a disagreement integrates the feedback and counts the round. */
  lemma RoundIntegrates(h: HubView, initiator: string, ps: seq<string>, topic: string, n: nat, st: NegState)
    requires Continues(st)
    requires FullDisagreement(h, initiator, ps, topic, n, st)
    ensures var (responses, sent) := Collect(h, initiator, ps, topic, st.proposal, st.round, n + |st.sent|);
      RoundStep(h, initiator, ps, topic, n, st)
        == st.(proposal := Integrated(st.proposal, FeedbackList(responses)), round := st.round + 1,
               responses := responses, sent := st.sent + sent)
  {
  }


  /** `all(...)` over the responses, written over the key order. */
  function AllAgreeExec(responses: Dict<string, Obj>): (b: bool)
    requires responses.Valid()
    ensures b == AllAgree(responses)
  {
    forall i :: 0 <= i < |responses.keys| ==> Agrees(responses.m[responses.keys[i]])
  }
}
