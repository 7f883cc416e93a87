/**
 * The per-request blackboard the agents share: a versioned context with a
 * per-agent update log, a global history, shared data, memory context and
 * snapshots, plus the module-level registry of contexts by request id.
 *
 * Each operation is a pure transition on a `Context` value; the
 * `ContextManager` class holds the current value and applies them.
 * Every operation reads the wall clock once, passed in as `now`.
 */
module ContextManagement {
  import opened Wrappers
  import opened Strings
  import opened Dicts
  import opened Values

  datatype UpdateEntry = UpdateEntry(timestamp: string, kind: string, data: Obj)

  datatype AgentContext = AgentContext(createdAt: string, updates: seq<UpdateEntry>, lastUpdated: Option<string>)

  datatype HistoryEntry = HistoryEntry(timestamp: string, agent: string, action: string, kind: string)

  datatype SharedItem = SharedItem(data: Value, fromAgent: Option<string>, timestamp: string)

  datatype Context = Context(
    requestId: string,
    createdAt: string,
    updatedAt: string,
    version: int,
    history: seq<HistoryEntry>,
    agentContexts: Dict<string, AgentContext>,
    sharedData: Dict<string, SharedItem>,
    memoryContext: Option<Dict<string, Obj>>)
  {
    ghost predicate Valid() {
      agentContexts.Valid() && sharedData.Valid()
      && (memoryContext.Some? ==> memoryContext.value.Valid())
    }
  }

  /** A snapshot; `context` is `None` for a snapshot without a "context" entry. */
  datatype Snapshot = Snapshot(snapshotId: string, timestamp: string, context: Option<Context>)

  const UpdateAction: string := "update_context"

  /** The context of a new manager. */
  function InitialContext(requestId: string, now: string): (c: Context)
    ensures c.Valid() && c.requestId == requestId
    ensures c.version == 1 && c.history == []
    ensures c.agentContexts.Size() == 0 && c.sharedData.Size() == 0 && c.memoryContext.None?
  {
    Context(requestId, now, now, 1, [], Empty(), Empty(), None)
  }

  /** `update_context(agent, data, kind)` */
  function AfterUpdate(c: Context, agent: string, data: Obj, kind: string, now: string): (r: Context)
    ensures r.version == c.version + 1
    ensures r.history == c.history + [HistoryEntry(now, agent, UpdateAction, kind)]
    ensures agent in r.agentContexts.m
    ensures r.agentContexts.m[agent].updates == AgentUpdates(c, agent) + [UpdateEntry(now, kind, data)]
    ensures r.agentContexts.m[agent].lastUpdated == Some(now)
    ensures agent in c.agentContexts.m ==> r.agentContexts.m[agent].createdAt == c.agentContexts.m[agent].createdAt
    ensures forall a :: a in c.agentContexts.m && a != agent ==> a in r.agentContexts.m && r.agentContexts.m[a] == c.agentContexts.m[a]
    ensures r.sharedData == c.sharedData && r.memoryContext == c.memoryContext
    ensures r.requestId == c.requestId && r.createdAt == c.createdAt && r.updatedAt == now
    ensures c.Valid() ==> r.Valid()
  {
    var entry := if agent in c.agentContexts.m then c.agentContexts.m[agent]
                 else AgentContext(now, [], None);
    var entry' := entry.(updates := entry.updates + [UpdateEntry(now, kind, data)], lastUpdated := Some(now));
    c.(agentContexts := c.agentContexts.Put(agent, entry'),
       updatedAt := now,
       version := c.version + 1,
       history := c.history + [HistoryEntry(now, agent, UpdateAction, kind)])
  }

  /** The update log of one agent (empty before its first update). */
  function AgentUpdates(c: Context, agent: string): seq<UpdateEntry> {
    if agent in c.agentContexts.m then c.agentContexts.m[agent].updates else []
  }

  /** `get_agent_context(agent)`; `None` stands for the `{}` of an unknown agent. */
  function AgentContextOf(c: Context, agent: string): (r: Option<AgentContext>)
    ensures r.Some? <==> agent in c.agentContexts.m
  {
    c.agentContexts.Get(agent)
  }

  /** `share_data(key, data, from_agent)`: an upsert that leaves the version alone. */
  function AfterShare(c: Context, key: string, data: Value, fromAgent: Option<string>, now: string): (r: Context)
    ensures r.sharedData.m == c.sharedData.m[key := SharedItem(data, fromAgent, now)]
    ensures r.version == c.version && r.history == c.history
    ensures r.agentContexts == c.agentContexts && r.memoryContext == c.memoryContext
    ensures r.requestId == c.requestId && r.updatedAt == now
    ensures c.Valid() ==> r.Valid()
  {
    c.(sharedData := c.sharedData.Put(key, SharedItem(data, fromAgent, now)), updatedAt := now)
  }

  /** `get_shared_data(key)`: the stored data, or `None` for an absent key. */
  function SharedDataOf(c: Context, key: string): (r: Value)
    ensures key in c.sharedData.m ==> r == c.sharedData.m[key].data
    ensures key !in c.sharedData.m ==> r == VNone
  {
    if key in c.sharedData.m then c.sharedData.m[key].data else VNone
  }

  /** `get_all_shared_data()`: key to data, over the same keys in the same order. */
  function AllSharedData(c: Context): (r: Dict<string, Value>)
    ensures r.keys == c.sharedData.keys
    ensures forall k :: k in r.m <==> k in c.sharedData.m
    ensures forall k :: k in r.m ==> r.m[k] == c.sharedData.m[k].data
    ensures c.Valid() ==> r.Valid()
  {
    Dict(c.sharedData.keys, map k | k in c.sharedData.m :: c.sharedData.m[k].data)
  }

  /** `add_memory_context(kind, data)`: overwrites one entry of the memory context. */
  function AfterAddMemory(c: Context, kind: string, data: Obj, now: string): (r: Context)
    ensures r.memoryContext.Some? && r.memoryContext.value.m == MemoryContextOf(c).m[kind := data]
    ensures r.version == c.version && r.history == c.history
    ensures r.sharedData == c.sharedData && r.agentContexts == c.agentContexts
    ensures c.Valid() ==> r.Valid()
  {
    var mc := if c.memoryContext.Some? then c.memoryContext.value else Empty();
    c.(memoryContext := Some(mc.Put(kind, data)), updatedAt := now)
  }

  /** `get_memory_context()`: `{}` until something is added. */
  function MemoryContextOf(c: Context): (r: Dict<string, Obj>)
    ensures c.memoryContext.None? ==> r == Empty()
    ensures c.memoryContext.Some? ==> r == c.memoryContext.value
  {
    if c.memoryContext.Some? then c.memoryContext.value else Empty()
  }

  /** The id `"{request_id}_snapshot_{version}"`. */
  function SnapshotId(requestId: string, version: int): string {
    requestId + "_snapshot_" + IntToString(version)
  }

  /**
   * `create_snapshot()`, with the whole context copied, so that a restore
   * brings it back; `Aliased` describes the shallow copy the code makes.
   */
  function CreateSnapshot(requestId: string, c: Context, now: string): (s: Snapshot)
    ensures s.context == Some(c) && s.timestamp == now
    ensures s.snapshotId == SnapshotId(requestId, c.version)
  {
    Snapshot(SnapshotId(requestId, c.version), now, Some(c))
  }

  /** `restore_from_snapshot(snapshot)`: only a snapshot that holds a context changes anything. */
  function AfterRestore(c: Context, s: Snapshot, now: string): (r: Context)
    ensures s.context.None? ==> r == c
    ensures s.context.Some? ==> r == s.context.value.(updatedAt := now)
  {
    if s.context.Some? then s.context.value.(updatedAt := now) else c
  }

  /** Snapshots of one request at different versions have different ids. */
  lemma SnapshotIdsDistinct(requestId: string, v1: int, v2: int)
    requires v1 != v2
    ensures SnapshotId(requestId, v1) != SnapshotId(requestId, v2)
  {
    var p := requestId + "_snapshot_";
    if SnapshotId(requestId, v1) == SnapshotId(requestId, v2) {
      assert p + IntToString(v1) == p + IntToString(v2);
      assert IntToString(v1) == (p + IntToString(v1))[|p|..];
      assert IntToString(v2) == (p + IntToString(v2))[|p|..];
      IntToStringInjective(v1, v2);
    }
  }

  lemma IntToStringInjective(a: int, b: int)
    requires IntToString(a) == IntToString(b)
    ensures a == b
  {
    if a >= 0 && b >= 0 {
      NatToStringInjective(a, b);
    } else if a < 0 && b < 0 {
      assert NatToString(-a) == IntToString(a)[1..];
      assert NatToString(-b) == IntToString(b)[1..];
      NatToStringInjective(-a, -b);
    }
  }

  /** The later of two writes to a shared key is the one read back; other keys are untouched. */
  lemma LastWriterWins(c: Context, key: string, d1: Value, d2: Value, a1: Option<string>, a2: Option<string>, t1: string, t2: string, other: string)
    requires other != key
    ensures var r := AfterShare(AfterShare(c, key, d1, a1, t1), key, d2, a2, t2);
      SharedDataOf(r, key) == d2 && SharedDataOf(r, other) == SharedDataOf(c, other)
  {
  }

  /** The operations that can be applied to a context (restore aside). */
  datatype Op =
    | Update(agent: string, data: Obj, kind: string)
    | Share(key: string, value: Value, fromAgent: Option<string>)
    | AddMemory(kind: string, memory: Obj)
    | Restore(snapshot: Snapshot)

  function Step(c: Context, op: Op, now: string): Context {
    match op
    case Update(agent, data, kind) => AfterUpdate(c, agent, data, kind, now)
    case Share(key, value, fromAgent) => AfterShare(c, key, value, fromAgent, now)
    case AddMemory(kind, memory) => AfterAddMemory(c, kind, memory, now)
    case Restore(s) => AfterRestore(c, s, now)
  }

  /** Applies the operations in order, the i-th one at time `clock(i)`. */
  function Run(c: Context, ops: seq<Op>, clock: nat -> string): Context
    decreases |ops|
  {
    if ops == [] then c else Step(Run(c, ops[..|ops| - 1], clock), ops[|ops| - 1], clock(|ops| - 1))
  }

  function CountUpdates(ops: seq<Op>): nat {
    if ops == [] then 0 else CountUpdates(ops[..|ops| - 1]) + (if ops[|ops| - 1].Update? then 1 else 0)
  }

  predicate NoRestore(ops: seq<Op>) {
    forall i :: 0 <= i < |ops| ==> !ops[i].Restore?
  }

  /**
   * Without restores, the version counts the updates and nothing else, and
   * the history holds exactly one record per update.
   */
  lemma {:induction false} VersionCountsUpdates(c: Context, ops: seq<Op>, clock: nat -> string)
    requires NoRestore(ops)
    ensures Run(c, ops, clock).version == c.version + CountUpdates(ops)
    ensures |Run(c, ops, clock).history| == |c.history| + CountUpdates(ops)
    decreases |ops|
  {
    if ops != [] {
      var init := ops[..|ops| - 1];
      assert NoRestore(init) by {
        forall i | 0 <= i < |init| ensures !init[i].Restore? {
          assert init[i] == ops[i];
        }
      }
      VersionCountsUpdates(c, init, clock);
    }
  }

  /**
   * Restoring a snapshot taken before any sequence of operations brings the
   * context back to the snapshotted one, version included; only the update
   * time differs.
   */
  lemma RestoreUndoes(requestId: string, c: Context, ops: seq<Op>, clock: nat -> string, t0: string, t1: string)
    ensures var r := AfterRestore(Run(c, ops, clock), CreateSnapshot(requestId, c, t0), t1);
      r == c.(updatedAt := t1) && r.version == c.version
  {
  }

  /**
   * What a snapshot's context reads as when it was taken with a shallow copy
   * and the live context has since become `cur` without a restore: the top
   * level is the snapshotted one, but the history, the agent contexts, the
   * shared data and an existing memory context are the live ones.
   */
  function SeenAtRestore(snap: Context, cur: Context): (r: Context)
    ensures r.version == snap.version && r.createdAt == snap.createdAt && r.requestId == snap.requestId
    ensures r.history == cur.history && r.agentContexts == cur.agentContexts && r.sharedData == cur.sharedData
    ensures r.memoryContext.None? <==> snap.memoryContext.None? || cur.memoryContext.None?
  {
    snap.(history := cur.history, agentContexts := cur.agentContexts, sharedData := cur.sharedData,
          memoryContext := if snap.memoryContext.Some? then cur.memoryContext else None)
  }

  /** A snapshot built by the shallow copy, as it reads once the live context is `cur`. */
  function Aliased(s: Snapshot, cur: Context): Snapshot {
    if s.context.Some? then s.(context := Some(SeenAtRestore(s.context.value, cur))) else s
  }

  /**
   * With the shallow copy, restoring the snapshot taken just before an
   * update brings the version back but keeps the update in the history and
   * in the agent's context, so the version no longer counts the history
   * entries.
   */
  lemma AliasedRestoreKeepsUpdate(requestId: string, c: Context, agent: string, data: Obj, kind: string, t0: string, t1: string, t2: string)
    requires c.version == 1 + |c.history|
    ensures var cur := AfterUpdate(c, agent, data, kind, t1);
      var r := AfterRestore(cur, Aliased(CreateSnapshot(requestId, c, t0), cur), t2);
      && r.version == c.version && r.history == cur.history && r.agentContexts == cur.agentContexts
      && agent in r.agentContexts.m && r.agentContexts.m[agent].updates == AgentUpdates(c, agent) + [UpdateEntry(t1, kind, data)]
      && |r.history| == |c.history| + 1 && r.version != 1 + |r.history|
  {
  }

  /** Without restores, the version is one more than the number of history entries. */
  lemma {:induction false} VersionMatchesHistory(requestId: string, ops: seq<Op>, clock: nat -> string, now: string)
    requires NoRestore(ops)
    ensures Run(InitialContext(requestId, now), ops, clock).version == 1 + |Run(InitialContext(requestId, now), ops, clock).history|
  {
    VersionCountsUpdates(InitialContext(requestId, now), ops, clock);
  }

  /** The operations keep the context's dictionaries well formed. */
  lemma {:induction false} RunValid(c: Context, ops: seq<Op>, clock: nat -> string)
    requires c.Valid()
    requires forall i :: 0 <= i < |ops| && ops[i].Restore? && ops[i].snapshot.context.Some? ==> ops[i].snapshot.context.value.Valid()
    ensures Run(c, ops, clock).Valid()
    decreases |ops|
  {
    if ops != [] {
      var init := ops[..|ops| - 1];
      forall i | 0 <= i < |init| && init[i].Restore? && init[i].snapshot.context.Some?
        ensures init[i].snapshot.context.value.Valid()
      {
        assert init[i] == ops[i];
      }
      RunValid(c, init, clock);
      var last := ops[|ops| - 1];
      if last.Restore? && last.snapshot.context.Some? {
        assert last.snapshot.context.value.Valid();
      }
    }
  }

  /** The live blackboard of one request. */
  class ContextManager {
    const requestId: string
    var context: Context

    constructor (requestId: string, now: string)
      ensures this.requestId == requestId
      ensures context == InitialContext(requestId, now)
    {
      this.requestId := requestId;
      context := InitialContext(requestId, now);
    }

    method UpdateContext(agent: string, data: Obj, kind: string, now: string)
      modifies this
      ensures context == AfterUpdate(old(context), agent, data, kind, now)
    {
      context := AfterUpdate(context, agent, data, kind, now);
    }

    function GetAgentContext(agent: string): (r: Option<AgentContext>)
      reads this
      ensures r == AgentContextOf(context, agent)
    {
      AgentContextOf(context, agent)
    }

    function GetAllContext(): (r: Context)
      reads this
      ensures r == context
    {
      context
    }

    method ShareData(key: string, data: Value, fromAgent: Option<string>, now: string)
      modifies this
      ensures context == AfterShare(old(context), key, data, fromAgent, now)
    {
      context := AfterShare(context, key, data, fromAgent, now);
    }

    function GetSharedData(key: string): (r: Value)
      reads this
      ensures r == SharedDataOf(context, key)
    {
      SharedDataOf(context, key)
    }

    function GetAllSharedData(): (r: Dict<string, Value>)
      reads this
      ensures r == AllSharedData(context)
    {
      AllSharedData(context)
    }

    method AddMemoryContext(kind: string, data: Obj, now: string)
      modifies this
      ensures context == AfterAddMemory(old(context), kind, data, now)
    {
      context := AfterAddMemory(context, kind, data, now);
    }

    function GetMemoryContext(): (r: Dict<string, Obj>)
      reads this
      ensures r == MemoryContextOf(context)
    {
      MemoryContextOf(context)
    }

    function CreateSnapshotOf(now: string): (s: Snapshot)
      reads this
      ensures s == CreateSnapshot(requestId, context, now)
    {
      CreateSnapshot(requestId, context, now)
    }

    method RestoreFromSnapshot(s: Snapshot, now: string)
      modifies this
      ensures context == AfterRestore(old(context), s, now)
    {
      context := AfterRestore(context, s, now);
    }
  }

  /** The module-level table of managers by request id. */
  class ContextRegistry {
    var managers: Dict<string, ContextManager>

    constructor ()
      ensures managers == Empty()
    {
      managers := Empty();
    }

    /** `get_context_manager(request_id)`: the existing manager, or a new one at version 1. */
    method GetContextManager(requestId: string, now: string) returns (cm: ContextManager)
      modifies this
      ensures requestId in old(managers.m) ==> cm == old(managers.m[requestId]) && managers == old(managers)
      ensures requestId !in old(managers.m) ==>
        && fresh(cm) && cm.requestId == requestId
        && cm.context == InitialContext(requestId, now)
        && managers == old(managers).Put(requestId, cm)
    {
      if requestId in managers.m {
        cm := managers.m[requestId];
      } else {
        cm := new ContextManager(requestId, now);
        managers := managers.Put(requestId, cm);
      }
    }

    /** `remove_context_manager(request_id)`: a no-op for an unknown id. */
    method RemoveContextManager(requestId: string)
      modifies this
      ensures managers == old(managers).Remove(requestId)
      ensures requestId !in managers.m
    {
      managers := managers.Remove(requestId);
    }
  }

  /** After a removal, asking for the same request id yields a fresh context at version 1. */
  method RemoveThenGet(reg: ContextRegistry, requestId: string, now: string) returns (cm: ContextManager)
    modifies reg
    ensures fresh(cm) && cm.context.version == 1 && cm.context.history == []
  {
    reg.RemoveContextManager(requestId);
    cm := reg.GetContextManager(requestId, now);
  }
}
