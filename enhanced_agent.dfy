/**
 * The enhanced agent: a completion agent that keeps a chat history, writes
 * its progress to a blackboard (context manager), registers with the
 * message hub, stores memories for its user, and runs a bounded loop in
 * which completions may ask for tools with `[TOOL_CALL:<name>:<args>]`.
 *
 * The completion model is an oracle `complete(k, turns)`: the text of the
 * k-th call made through an `Llm` object, given the turns sent with it.
 * The system prompt is built outside the model and passed in.
 */
module EnhancedAgents {
  import opened Wrappers
  import opened Strings
  import opened Dicts
  import opened Values
  import opened ContextManagement
  import opened AgentCommunication
  import opened ToolCalls
  import opened Memory

  /** A chat turn: `{"role": ..., "content": ...}`, or a history `Message`. */
  datatype Turn = Turn(role: string, content: string)

  /** The model client; `calls` counts the invocations made so far. */
  class Llm {
    const complete: (nat, seq<Turn>) -> string
    var calls: nat

    constructor (complete: (nat, seq<Turn>) -> string)
      ensures this.complete == complete && calls == 0
    {
      this.complete := complete;
      calls := 0;
    }

    /** `llm.invoke(messages)` */
    method Invoke(messages: seq<Turn>) returns (r: string)
      modifies this
      ensures r == complete(old(calls), messages) && calls == old(calls) + 1
    {
      r := complete(calls, messages);
      calls := calls + 1;
    }
  }

  // One tool iteration

  /** The results of a completion's tool calls, in call order. */
  function ToolResults(registry: Option<ToolRegistry>, calls: seq<ToolCall>): (r: seq<string>)
    decreases |calls|
  {
    if calls == [] then []
    else
      var last := calls[|calls| - 1];
      ToolResults(registry, calls[..|calls| - 1]) + [ExecuteToolCall(registry, last.toolName, last.parameters)]
  }

  /** The completion with each call's matched text replaced by "" in turn. */
  function Cleaned(response: string, calls: seq<ToolCall>): string
    decreases |calls|
  {
    if calls == [] then response
    else ReplaceAll(Cleaned(response, calls[..|calls| - 1]), calls[|calls| - 1].original, "")
  }

  const ResultsHeader: string := "工具执行结果：\n"
  const ResultsFooter: string := "\n\n请基于这些结果给出完整的回答。"

  function ResultsTurn(results: seq<string>): Turn {
    Turn("user", ResultsHeader + Join(results, "\n\n") + ResultsFooter)
  }

  /** The two turns one tool iteration appends. */
  function StepTurns(registry: Option<ToolRegistry>, response: string, calls: seq<ToolCall>): (r: seq<Turn>)
    ensures |r| == 2 && r[0].role == "assistant" && r[1].role == "user"
  {
    [Turn("assistant", Cleaned(response, calls)), ResultsTurn(ToolResults(registry, calls))]
  }

  // The tool loop

  /**
   * Where the loop stopped: the turns sent so far, the iterations done, the
   * final answer ("" until one is given), and the index of the next model call.
   */
  datatype LoopOutcome = LoopOutcome(messages: seq<Turn>, iterations: int, final: string, next: nat)

  /**
   * The `while current_iteration < max_tool_iterations` loop from iteration
   * `it`, model call `n`: a completion with tool calls adds a step and goes
   * on, one without ends the loop as the final answer. It is stated for any
   * parser `parse`; the agent runs it with `ToolCallsOf`.
   */
  function ToolLoop(complete: (nat, seq<Turn>) -> string, parse: string -> seq<ToolCall>, registry: Option<ToolRegistry>,
                    messages: seq<Turn>, n: nat, it: int, maxIter: int): LoopOutcome
    decreases maxIter - it
  {
    if it >= maxIter then LoopOutcome(messages, it, "", n)
    else
      var response := complete(n, messages);
      var calls := parse(response);
      if calls != [] then ToolLoop(complete, parse, registry, messages + StepTurns(registry, response, calls), n + 1, it + 1, maxIter)
      else LoopOutcome(messages, it, response, n + 1)
  }

  /** `_run_with_tools`'s model calls: the loop, then one more call if the loop ran out. */
  function ToolRun(complete: (nat, seq<Turn>) -> string, parse: string -> seq<ToolCall>, registry: Option<ToolRegistry>,
                   messages: seq<Turn>, n: nat, maxIter: int): LoopOutcome
  {
    var o := ToolLoop(complete, parse, registry, messages, n, 0, maxIter);
    if o.iterations >= maxIter && o.final == "" then o.(final := complete(o.next, o.messages), next := o.next + 1)
    else o
  }

  /** A completion that asks for a tool whatever it is given. */
  ghost predicate AlwaysCallsTools(complete: (nat, seq<Turn>) -> string, parse: string -> seq<ToolCall>) {
    forall k, ms :: parse(complete(k, ms)) != []
  }

  function Max0(x: int): nat {
    if x > 0 then x else 0
  }

  lemma {:induction false} AlwaysToolsLoop(complete: (nat, seq<Turn>) -> string, parse: string -> seq<ToolCall>, registry: Option<ToolRegistry>,
                                           messages: seq<Turn>, n: nat, it: int, maxIter: int)
    requires AlwaysCallsTools(complete, parse)
    ensures var o := ToolLoop(complete, parse, registry, messages, n, it, maxIter);
      o.final == "" && o.next == n + Max0(maxIter - it) && o.iterations == (if it < maxIter then maxIter else it)
    decreases maxIter - it
  {
    if it < maxIter {
      var response := complete(n, messages);
      assert parse(response) != [];
      AlwaysToolsLoop(complete, parse, registry, messages + StepTurns(registry, response, parse(response)), n + 1, it + 1, maxIter);
    }
  }

  /**
   * When every completion asks for a tool, `_run_with_tools` calls the model
   * `max_tool_iterations + 1` times (once when the bound is 0 or less) and
   * answers with the last completion.
   */
  lemma AlwaysToolsRun(complete: (nat, seq<Turn>) -> string, parse: string -> seq<ToolCall>, registry: Option<ToolRegistry>,
                       messages: seq<Turn>, n: nat, maxIter: int)
    requires AlwaysCallsTools(complete, parse)
    ensures var o := ToolRun(complete, parse, registry, messages, n, maxIter);
      && o.next == n + Max0(maxIter) + 1
      && o.iterations == Max0(maxIter)
      && o.final == complete(o.next - 1, o.messages)
  {
    AlwaysToolsLoop(complete, parse, registry, messages, n, 0, maxIter);
  }

  /** A completion without tool calls inside the bound ends the loop at once, with one model call. */
  lemma DirectAnswer(complete: (nat, seq<Turn>) -> string, parse: string -> seq<ToolCall>, registry: Option<ToolRegistry>,
                     messages: seq<Turn>, n: nat, maxIter: int)
    requires maxIter > 0 && parse(complete(n, messages)) == [] && complete(n, messages) != ""
    ensures ToolRun(complete, parse, registry, messages, n, maxIter)
         == LoopOutcome(messages, 0, complete(n, messages), n + 1)
  {
  }

  /** One model call per iteration, plus one for the answer that ended the loop. */
  lemma {:induction false} ToolLoopCalls(complete: (nat, seq<Turn>) -> string, parse: string -> seq<ToolCall>, registry: Option<ToolRegistry>,
                                         messages: seq<Turn>, n: nat, it: int, maxIter: int)
    ensures var o := ToolLoop(complete, parse, registry, messages, n, it, maxIter);
      && o.iterations >= it
      && o.next == n + (o.iterations - it) + (if o.final != "" || o.iterations < maxIter then 1 else 0)
    decreases maxIter - it
  {
    if it < maxIter {
      var response := complete(n, messages);
      var calls := parse(response);
      if calls != [] {
        ToolLoopCalls(complete, parse, registry, messages + StepTurns(registry, response, calls), n + 1, it + 1, maxIter);
      }
    }
  }

  /** Every turn of `ms` at an even offset is the assistant's and every odd one the user's. */
  ghost predicate Alternating(ms: seq<Turn>) {
    |ms| % 2 == 0 && forall j :: 0 <= j < |ms| ==> ms[j].role == (if j % 2 == 0 then "assistant" else "user")
  }

  lemma AlternatingCons(step: seq<Turn>, rest: seq<Turn>)
    requires |step| == 2 && step[0].role == "assistant" && step[1].role == "user" && Alternating(rest)
    ensures Alternating(step + rest)
  {
    var ms := step + rest;
    forall j | 0 <= j < |ms| ensures ms[j].role == (if j % 2 == 0 then "assistant" else "user") {
      if j >= 2 {
        assert ms[j] == rest[j - 2];
      }
    }
  }

  lemma PrefixAfter(x: seq<Turn>, a: seq<Turn>, b: seq<Turn>)
    requires |a| + |b| <= |x| && x[..|a| + |b|] == a + b
    ensures x[..|a|] == a && x[|a|..] == b + x[|a| + |b|..]
  {
    assert x[..|a|] == (a + b)[..|a|];
    assert x[|a|..] == x[|a|..|a| + |b|] + x[|a| + |b|..];
    assert x[|a|..|a| + |b|] == (a + b)[|a|..];
  }

  /** Turns that extend `messages + step` alternately also extend `messages` alternately. */
  lemma StepExtends(messages: seq<Turn>, step: seq<Turn>, x: seq<Turn>)
    requires |step| == 2 && step[0].role == "assistant" && step[1].role == "user"
    requires |messages + step| <= |x| && x[..|messages + step|] == messages + step
    requires Alternating(x[|messages + step|..])
    ensures |messages| <= |x| && x[..|messages|] == messages && Alternating(x[|messages|..])
  {
    var ms := messages + step;
    PrefixAfter(x, messages, step);
    AlternatingCons(step, x[|ms|..]);
    assert x[|messages|..] == step + x[|ms|..];
  }

  /**
   * The loop only appends: two turns per iteration, an assistant turn and
   * then a user turn with the tool results.
   */
  lemma {:induction false} ToolLoopTurns(complete: (nat, seq<Turn>) -> string, parse: string -> seq<ToolCall>, registry: Option<ToolRegistry>,
                                         messages: seq<Turn>, n: nat, it: int, maxIter: int)
    ensures var o := ToolLoop(complete, parse, registry, messages, n, it, maxIter);
      && |messages| <= |o.messages|
      && o.messages[..|messages|] == messages
      && Alternating(o.messages[|messages|..])
      && |o.messages| == |messages| + 2 * (o.iterations - it)
    decreases maxIter - it
  {
    if it < maxIter {
      var response := complete(n, messages);
      var calls := parse(response);
      if calls != [] {
        var step := StepTurns(registry, response, calls);
        var ms := messages + step;
        ToolLoopTurns(complete, parse, registry, ms, n + 1, it + 1, maxIter);
        var o := ToolLoop(complete, parse, registry, ms, n + 1, it + 1, maxIter);
        assert ToolLoop(complete, parse, registry, messages, n, it, maxIter) == o;
        StepExtends(messages, step, o.messages);
      } else {
        NothingAppended(messages);
      }
    } else {
      NothingAppended(messages);
    }
  }

  lemma NothingAppended(messages: seq<Turn>)
    ensures messages[..|messages|] == messages && Alternating(messages[|messages|..])
  {
    assert messages[|messages|..] == [];
  }

  // Cleaning a completion that holds one token

  lemma FindNoBracket(s: string, pat: string)
    requires pat != [] && pat[0] == '[' && '[' !in s
    ensures Find(s, pat) == None
  {
    forall j | 0 <= j && j + |pat| <= |s| ensures !OccursAt(s, pat, j) {
      assert s[j..j + |pat|][0] == s[j];
    }
  }

  lemma FindAfterNoBracket(prefix: string, pat: string, suffix: string)
    requires pat != [] && pat[0] == '[' && '[' !in prefix
    ensures Find(prefix + pat + suffix, pat) == Some(|prefix|)
  {
    var s := prefix + pat + suffix;
    assert s[|prefix|..|prefix| + |pat|] == pat;
    assert OccursAt(s, pat, |prefix|);
    forall j | 0 <= j < |prefix| ensures !OccursAt(s, pat, j) {
      assert s[j..j + |pat|][0] == s[j] == prefix[j];
    }
  }

  /** Removing a '['-led pattern that occurs once, with no other '[' around it. */
  lemma ReplaceSingle(prefix: string, t: string, suffix: string)
    requires t != [] && t[0] == '[' && '[' !in prefix && '[' !in suffix
    ensures ReplaceAll(prefix + t + suffix, t, "") == prefix + suffix
  {
    var text := prefix + t + suffix;
    FindAfterNoBracket(prefix, t, suffix);
    assert text[..|prefix|] == prefix;
    assert text[|prefix| + |t|..] == suffix;
    assert ReplaceAll(text, t, "") == text[..|prefix|] + "" + ReplaceAll(text[|prefix| + |t|..], t, "");
    FindNoBracket(suffix, t);
    assert ReplaceAll(suffix, t, "") == suffix;
    assert prefix + "" + suffix == prefix + suffix;
  }

  lemma CleanedOne(response: string, c: ToolCall)
    ensures Cleaned(response, [c]) == ReplaceAll(response, c.original, "")
  {
    assert [c][..0] == [];
  }

  /**
   * A completion holding one tool token and no other '[' is cleaned to the
   * text around the token.
   */
  lemma CleanedSingleToken(prefix: string, name: string, args: string, suffix: string)
    requires Groups(name, args) && '[' !in prefix && '[' !in suffix
    ensures Cleaned(prefix + Token(name, args) + suffix, ToolCallsOf(prefix + Token(name, args) + suffix)) == prefix + suffix
  {
    var t := Token(name, args);
    SingleToken(prefix, name, args, suffix);
    CleanedOne(prefix + t + suffix, ToolCall(Strip(name), Strip(args), t));
    assert t[0] == '[';
    ReplaceSingle(prefix, t, suffix);
  }

  // Blackboard payloads

  function ProcessingData(input: string): Obj {
    Dict(["input", "status"], map["input" := VStr(input), "status" := VStr("processing")])
  }

  function CompletedData(output: string): Obj {
    Dict(["output", "status"], map["output" := VStr(output), "status" := VStr("completed")])
  }

  function ToolCompletedData(output: string, iterations: int): Obj {
    Dict(["output", "status", "tool_iterations"],
         map["output" := VStr(output), "status" := VStr("completed"), "tool_iterations" := VInt(iterations)])
  }

  function ResultKey(name: string): string {
    name + "_result"
  }

  /** The turns sent to the model: system prompt, history, then the new input. */
  function Prompt(systemPrompt: string, history: seq<Turn>, input: string): seq<Turn> {
    [Turn("system", systemPrompt)] + history + [Turn("user", input)]
  }

  /** The blackboard after a run: the "processing" update, then the "result" update, then (tool path) the share. */
  function RunContext(c: Context, name: string, input: string, output: string, toolPath: bool, iterations: int, now: string): Context {
    var p := AfterUpdate(c, name, ProcessingData(input), "info", now);
    if toolPath then
      AfterShare(AfterUpdate(p, name, ToolCompletedData(output, iterations), "result", now), ResultKey(name), VStr(output), Some(name), now)
    else AfterUpdate(p, name, CompletedData(output), "result", now)
  }

  /**
   * A run advances the version by two and logs two history records; only
   * the tool path shares a key, `<name>_result`, holding the answer.
   */
  lemma RunContextEffects(c: Context, name: string, input: string, output: string, toolPath: bool, iterations: int, now: string)
    ensures var r := RunContext(c, name, input, output, toolPath, iterations, now);
      && r.version == c.version + 2
      && r.history == c.history + [HistoryEntry(now, name, UpdateAction, "info"), HistoryEntry(now, name, UpdateAction, "result")]
      && AgentUpdates(r, name) == AgentUpdates(c, name) + [UpdateEntry(now, "info", ProcessingData(input)),
           UpdateEntry(now, "result", if toolPath then ToolCompletedData(output, iterations) else CompletedData(output))]
      && (toolPath ==> r.sharedData.m == c.sharedData.m[ResultKey(name) := SharedItem(VStr(output), Some(name), now)])
      && (!toolPath ==> r.sharedData == c.sharedData)
  {
    var p := AfterUpdate(c, name, ProcessingData(input), "info", now);
    assert AgentUpdates(p, name) == AgentUpdates(c, name) + [UpdateEntry(now, "info", ProcessingData(input))];
  }

  // Default message handling

  /** `handle_message`'s default reply. */
  function DefaultReply(name: string, mtype: MessageType): (r: Obj)
    ensures "status" in r.m && "agent" in r.m
    ensures r.m["status"] == VStr("received") && r.m["agent"] == VStr(name)
    ensures "message" in r.m <==> mtype == Query || mtype == Request
    ensures mtype == Query ==> r.m["message"] == VStr("查询已收到，正在处理")
    ensures mtype == Request ==> r.m["message"] == VStr("请求已收到，正在处理")
    ensures r.Valid()
  {
    if mtype == Query then
      Dict(["status", "agent", "message"], map["status" := VStr("received"), "agent" := VStr(name), "message" := VStr("查询已收到，正在处理")])
    else if mtype == Request then
      Dict(["status", "agent", "message"], map["status" := VStr("received"), "agent" := VStr(name), "message" := VStr("请求已收到，正在处理")])
    else
      Dict(["status", "agent"], map["status" := VStr("received"), "agent" := VStr(name)])
  }

  /** The memory-store arguments `store_memory` derives: the type key and its default. */
  function MemoryKey(data: Obj, key: string, default: string): string {
    GetStr(data, key).GetOr(default)
  }

  class EnhancedAgent {
    const name: string
    const llm: Llm
    const registry: Option<ToolRegistry>
    const enableToolCalling: bool
    const contextManager: Option<ContextManager>
    const hub: Option<CommunicationHub>
    const userId: Option<string>
    const memory: MemoryService
    var history: seq<Turn>

    ghost function Board(): set<object> {
      if contextManager.Some? then {contextManager.value} else {}
    }

    ghost function HubSet(): set<object> {
      if hub.Some? then {hub.value} else {}
    }

    /**
     * `EnhancedAgent.__init__`: tool calling is on only with a registry; with
     * a hub the agent is registered and its query and request handlers set,
     * so its handler table holds exactly those two.
     */
    constructor (name: string, llm: Llm, registry: Option<ToolRegistry>, enable: bool,
                 contextManager: Option<ContextManager>, hub: Option<CommunicationHub>,
                 userId: Option<string>, memory: MemoryService,
                 instance: AgentInstance, onQuery: HandlerId, onRequest: HandlerId)
      modifies if hub.Some? then {hub.value} else {}
      ensures this.name == name && this.llm == llm && this.registry == registry
      ensures enableToolCalling == (enable && registry.Some?)
      ensures this.contextManager == contextManager && this.hub == hub
      ensures this.userId == userId && this.memory == memory && history == []
      ensures hub.Some? ==>
        && hub.value.agents == old(hub.value.agents).Put(name, instance)
        && hub.value.handlers == old(hub.value.handlers)[name := map[Query := onQuery, Request := onRequest]]
        && hub.value.history == old(hub.value.history)
    {
      this.name := name;
      this.llm := llm;
      this.registry := registry;
      this.enableToolCalling := enable && registry.Some?;
      this.contextManager := contextManager;
      this.hub := hub;
      this.userId := userId;
      this.memory := memory;
      history := [];
      new;
      if hub.Some? {
        var h := hub.value;
        ghost var handlers0 := h.handlers;
        h.RegisterAgent(name, instance);
        assert h.handlers == handlers0[name := map[]];
        h.RegisterMessageHandler(name, Query, onQuery);
        assert h.handlers == handlers0[name := map[Query := onQuery]];
        h.RegisterMessageHandler(name, Request, onRequest);
        assert h.handlers[name] == map[Query := onQuery, Request := onRequest];
      }
    }

    /** The tool loop `run` would go through for `input`, the model having made `calls` calls and the history being `h`. */
    function Outcome(calls: nat, h: seq<Turn>, input: string, maxIter: int, systemPrompt: string): LoopOutcome {
      ToolRun(llm.complete, ToolCallsOf, registry, Prompt(systemPrompt, h, input), calls, maxIter)
    }

    /** The answer `run` gives in that state: one completion, or the tool loop's final text. */
    function AnswerFor(calls: nat, h: seq<Turn>, input: string, maxIter: int, systemPrompt: string): string {
      if enableToolCalling then Outcome(calls, h, input, maxIter, systemPrompt).final
      else llm.complete(calls, Prompt(systemPrompt, h, input))
    }

    /** The model's call count after that run. */
    function CallsAfter(calls: nat, h: seq<Turn>, input: string, maxIter: int, systemPrompt: string): nat {
      if enableToolCalling then Outcome(calls, h, input, maxIter, systemPrompt).next else calls + 1
    }

    /**
     * `run`: the "processing" update, the prompt, then either one model call
     * or the tool loop; the history gains the input and the answer.
     */
    method Run(input: string, maxIter: int, systemPrompt: string, now: string) returns (r: string)
      modifies this, llm, Board()
      ensures var msgs := Prompt(systemPrompt, old(history), input);
        var o := ToolRun(llm.complete, ToolCallsOf, registry, msgs, old(llm.calls), maxIter);
        && (!enableToolCalling ==> r == llm.complete(old(llm.calls), msgs) && llm.calls == old(llm.calls) + 1)
        && (enableToolCalling ==> r == o.final && llm.calls == o.next)
        && (contextManager.Some? ==>
              contextManager.value.context == RunContext(old(contextManager.value.context), name, input, r, enableToolCalling, o.iterations, now))
      ensures history == old(history) + [Turn("user", input), Turn("assistant", r)]
      ensures r == AnswerFor(old(llm.calls), old(history), input, maxIter, systemPrompt)
      ensures llm.calls == CallsAfter(old(llm.calls), old(history), input, maxIter, systemPrompt)
      ensures contextManager.Some? ==>
        contextManager.value.context == RunContext(old(contextManager.value.context), name, input, r, enableToolCalling,
                                                   Outcome(old(llm.calls), old(history), input, maxIter, systemPrompt).iterations, now)
    {
      if contextManager.Some? {
        contextManager.value.UpdateContext(name, ProcessingData(input), "info", now);
      }
      var messages := Prompt(systemPrompt, history, input);
      if !enableToolCalling {
        r := llm.Invoke(messages);
        history := history + [Turn("user", input), Turn("assistant", r)];
        if contextManager.Some? {
          contextManager.value.UpdateContext(name, CompletedData(r), "result", now);
        }
        return;
      }
      r := RunWithTools(messages, input, maxIter, now);
    }

    /** `_run_with_tools` */
    method RunWithTools(messages: seq<Turn>, input: string, maxIter: int, now: string) returns (r: string)
      modifies this, llm, Board()
      ensures var o := ToolRun(llm.complete, ToolCallsOf, registry, messages, old(llm.calls), maxIter);
        && r == o.final && llm.calls == o.next
        && (contextManager.Some? ==>
              contextManager.value.context
                == AfterShare(AfterUpdate(old(contextManager.value.context), name, ToolCompletedData(r, o.iterations), "result", now),
                              ResultKey(name), VStr(r), Some(name), now))
      ensures history == old(history) + [Turn("user", input), Turn("assistant", r)]
    {
      var msgs, current, final := ToolIterations(messages, maxIter);
      if current >= maxIter && final == "" {
        final := llm.Invoke(msgs);
      }
      r := final;
      history := history + [Turn("user", input), Turn("assistant", r)];
      if contextManager.Some? {
        contextManager.value.UpdateContext(name, ToolCompletedData(r, current), "result", now);
        contextManager.value.ShareData(ResultKey(name), VStr(r), Some(name), now);
      }
    }

    /** The `while` loop of `_run_with_tools`. */
    method ToolIterations(messages: seq<Turn>, maxIter: int) returns (msgs: seq<Turn>, current: int, final: string)
      modifies llm
      ensures LoopOutcome(msgs, current, final, llm.calls)
           == ToolLoop(llm.complete, ToolCallsOf, registry, messages, old(llm.calls), 0, maxIter)
    {
      msgs := messages;
      current := 0;
      final := "";
      ghost var target := ToolLoop(llm.complete, ToolCallsOf, registry, messages, llm.calls, 0, maxIter);
      while current < maxIter
        invariant 0 <= current && final == ""
        invariant ToolLoop(llm.complete, ToolCallsOf, registry, msgs, llm.calls, current, maxIter) == target
        decreases maxIter - current
      {
        var done, response, msgs' := LoopStep(msgs, current, maxIter);
        if done {
          final := response;
          return;
        }
        msgs := msgs';
        current := current + 1;
      }
    }

    /** One pass of the `while` loop: one model call, then either the tool step or the answer. */
    method LoopStep(msgs: seq<Turn>, current: int, maxIter: int) returns (done: bool, response: string, msgs': seq<Turn>)
      requires current < maxIter
      modifies llm
      ensures llm.calls == old(llm.calls) + 1
      ensures ToolLoop(llm.complete, ToolCallsOf, registry, msgs, old(llm.calls), current, maxIter)
           == if done then LoopOutcome(msgs, current, response, llm.calls)
              else ToolLoop(llm.complete, ToolCallsOf, registry, msgs', llm.calls, current + 1, maxIter)
    {
      response := llm.Invoke(msgs);
      var calls := ParseToolCalls(response);
      if calls != [] {
        var results, clean := RunToolCalls(response, calls);
        msgs' := msgs + [Turn("assistant", clean), ResultsTurn(results)];
        done := false;
      } else {
        msgs' := msgs;
        done := true;
      }
    }

    /** The `for call in tool_calls` loop: run each call and strip its token from the text. */
    method RunToolCalls(response: string, calls: seq<ToolCall>) returns (results: seq<string>, clean: string)
      ensures results == ToolResults(registry, calls) && clean == Cleaned(response, calls)
    {
      results := [];
      clean := response;
      for k := 0 to |calls|
        invariant results == ToolResults(registry, calls[..k]) && clean == Cleaned(response, calls[..k])
      {
        assert calls[..k + 1][..k] == calls[..k];
        results := results + [ExecuteToolCall(registry, calls[k].toolName, calls[k].parameters)];
        clean := ReplaceAll(clean, calls[k].original, "");
      }
      assert calls[..|calls|] == calls;
    }

    /** `handle_message` (and the query and request handlers, which call it). */
    function HandleMessage(m: AgentMessage): Obj {
      DefaultReply(name, m.mtype)
    }

    /**
     * `send_message_to_agent`: `None` without a hub; otherwise one message,
     * carrying the blackboard when there is one, goes through the hub.
     */
    method SendMessageToAgent(receiver: string, mtype: MessageType, content: Obj) returns (r: Option<Obj>)
      modifies HubSet()
      ensures hub.None? ==> r == None
      ensures hub.Some? ==>
        var ctx := if contextManager.Some? then Some(contextManager.value.context) else None;
        var m := NewMessage(name, receiver, mtype, content, ctx, hub.value.clock(|old(hub.value.history)|));
        && hub.value.history == old(hub.value.history) + [m]
        && r == Deliver(HubView(old(hub.value.agents), old(hub.value.handlers), hub.value.dispatch, hub.value.clock), m)
        && hub.value.agents == old(hub.value.agents) && hub.value.handlers == old(hub.value.handlers)
    {
      if hub.None? {
        return None;
      }
      var h := hub.value;
      var ctx := if contextManager.Some? then Some(contextManager.value.context) else None;
      var m := NewMessage(name, receiver, mtype, content, ctx, h.clock(|h.history|));
      r := h.SendMessage(m);
    }

    /**
     * `store_memory`: nothing without a user id; "preference", "feedback"
     * and "context" go to the matching memory store, anything else is ignored.
     */
    method StoreMemory(memoryType: string, data: Obj, now: string)
      modifies memory
      ensures !Given(userId) || memoryType !in {"preference", "feedback", "context"} ==>
        memory.users == old(memory.users)
      ensures Given(userId) && memoryType == "preference" ==>
        memory.users == old(memory.users).Put(userId.value,
          AddPreference(old(memory.users).Get(userId.value), MemoryKey(data, "preference_type", "general"), Stamped(data, now), now))
      ensures Given(userId) && memoryType == "feedback" ==>
        memory.users == old(memory.users).Put(userId.value,
          AddFeedback(old(memory.users).Get(userId.value), FeedbackEntry(MemoryKey(data, "trip_id", ""), now, data)))
      ensures Given(userId) && memoryType == "context" ==>
        memory.users == old(memory.users).Put(userId.value,
          AddShortTerm(old(memory.users).Get(userId.value), MemoryKey(data, "context_key", "general"), VDict(data), now))
      ensures memory.destinations == old(memory.destinations) && memory.experiences == old(memory.experiences)
    {
      if !Given(userId) {
        return;
      }
      var uid := userId.value;
      if memoryType == "preference" {
        var _ := memory.StoreUserPreference(uid, MemoryKey(data, "preference_type", "general"), data, now);
      } else if memoryType == "feedback" {
        memory.StoreUserFeedback(uid, MemoryKey(data, "trip_id", ""), data, now);
      } else if memoryType == "context" {
        memory.StoreShortTermContext(uid, MemoryKey(data, "context_key", "general"), VDict(data), now);
      }
    }
  }
}
