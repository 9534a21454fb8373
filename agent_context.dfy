/**
 * `AgentContext` (agent/agent_context.py): the session container shared by
 * agent 0 and its subordinates. It owns the context data, the optional
 * session store, and the registry of agents by id.
 */
module AgentContext {
  import opened Wrappers
  import opened Text
  import opened Agent
  import SessionStore

  predicate IsHexDigit(c: char) {
    ('0' <= c <= '9') || ('a' <= c <= 'f')
  }

  /** What `uuid.uuid4().hex` produces: 32 lower-case hexadecimal digits. */
  predicate IsUuidHex(h: string) {
    |h| == 32 && forall i :: 0 <= i < |h| ==> IsHexDigit(h[i])
  }

  /** `session_id or uuid.uuid4().hex[:12]` */
  function ContextId(sessionId: Option<string>, uuidHex: string): (id: string)
    requires IsUuidHex(uuidHex)
    ensures sessionId.Some? && sessionId.value != [] ==> id == sessionId.value
    ensures !(sessionId.Some? && sessionId.value != []) ==>
      |id| == 12 && (forall i :: 0 <= i < 12 ==> IsHexDigit(id[i])) && id == uuidHex[..12]
  {
    if sessionId.Some? && sessionId.value != [] then sessionId.value else uuidHex[..12]
  }

  /** The stored session a new context restores from, as the constructor looks it up once `ensure_session` has run. */
  function Restored(persist: bool, sessionId: Option<string>, store: SessionStore.Store): Option<SessionStore.SessionData>
    reads store
  {
    if persist && sessionId.Some? && sessionId.value != [] then store.GetSession(sessionId.value) else None
  }

  /** A restored session supplies the title only when it is non-empty; the timestamps likewise. */
  function RestoredTitle(found: Option<SessionStore.SessionData>): (t: Option<string>)
    ensures t.Some? <==> found.Some? && HasTitle(found.value.row.title)
    ensures t.Some? ==> t == found.value.row.title
  {
    if found.Some? && HasTitle(found.value.row.title) then found.value.row.title else None
  }

  function RestoredStamp(field: Option<string>, now: string): (t: string)
    ensures field.Some? && field.value != [] ==> t == field.value
    ensures !(field.Some? && field.value != []) ==> t == now
  {
    if field.Some? && field.value != [] then field.value else now
  }

  /** `{"role": msg.get("role", "system"), "content": msg.get("content", "")}`; stored rows always carry both keys. */
  function RestoredHistory(ms: seq<SessionStore.StoredMessage>): seq<HistoryEntry> {
    if ms == [] then []
    else RestoredHistory(ms[..|ms| - 1]) + [HistoryEntry(ms[|ms| - 1].role, ms[|ms| - 1].content, None)]
  }

  /** The restored history keeps every stored message's role and content, in order, without timestamps. */
  lemma {:induction false} RestoredHistoryKeeps(ms: seq<SessionStore.StoredMessage>)
    ensures |RestoredHistory(ms)| == |ms|
    ensures forall i :: 0 <= i < |ms| ==>
      RestoredHistory(ms)[i] == HistoryEntry(ms[i].role, ms[i].content, None)
  {
    if ms != [] {
      RestoredHistoryKeeps(ms[..|ms| - 1]);
    }
  }

  /** The constructor's restore step: copy what a stored session supplies onto the fresh context data. */
  method Restore(d: ContextData, found: Option<SessionStore.SessionData>, now: string)
    requires d.createdAt == now && d.updatedAt == now && d.title.None? && d.toolCalls == []
    modifies d
    ensures d.sessionHistory == (if found.Some? then Some(found.value.messages) else old(d.sessionHistory))
    ensures d.sessionToolCalls == (if found.Some? then Some(found.value.toolCalls) else old(d.sessionToolCalls))
    ensures d.toolCalls == (if found.Some? then found.value.toolCalls else [])
    ensures d.title == RestoredTitle(found)
    ensures d.createdAt == (if found.Some? then RestoredStamp(Some(found.value.row.createdAt), now) else now)
    ensures d.updatedAt == (if found.Some? then RestoredStamp(Some(found.value.row.updatedAt), now) else now)
    ensures d.toolCache == old(d.toolCache)
  {
    if found.Some? {
      var session := found.value;
      d.sessionHistory := Some(session.messages);
      d.sessionToolCalls := Some(session.toolCalls);
      d.toolCalls := session.toolCalls;
      if HasTitle(session.row.title) {
        d.title := session.row.title;
      }
      if session.row.createdAt != [] {
        d.createdAt := session.row.createdAt;
      }
      if session.row.updatedAt != [] {
        d.updatedAt := session.row.updatedAt;
      }
    }
  }

  /** The history `create_agent` starts an agent with: agent 0 takes a restored session's messages. */
  function InitialHistory(agentId: int, sessionHistory: Option<seq<SessionStore.StoredMessage>>): seq<HistoryEntry> {
    if agentId == 0 && sessionHistory.Some? then RestoredHistory(sessionHistory.value) else []
  }

  class AgentContext {
    const data: ContextData
    const config: AgentConfig
    const registry: Registry
    const env: Externals
    var agents: map<int, Agent>

    /** The context data, and the store behind it when there is one, are well formed. */
    predicate Valid()
      reads this, data, data.store
    {
      data.Valid()
    }

    /**
     * `AgentContext(config, session_id)`. `uuidHex` is the generated uuid,
     * `db` the database file a persisting context opens, and `now` the clock.
     */
    constructor(config: AgentConfig, registry: Registry, env: Externals, persist: bool, maxSessions: int,
                modelName: Option<string>, sessionId: Option<string>, uuidHex: string, db: SessionStore.Store,
                now: string)
      requires IsUuidHex(uuidHex) && db.Valid() && db.maxSessions == maxSessions
      modifies db
      ensures fresh(data) && Valid()
      ensures data.id == ContextId(sessionId, uuidHex)
      ensures data.store == (if persist then db else null)
      ensures this.config == config && this.registry == registry && this.env == env && agents == map[]
      ensures !persist ==> db.sessions == old(db.sessions) && db.messages == old(db.messages)
                           && db.toolCalls == old(db.toolCalls)
      ensures persist ==>
        var id := data.id;
        var before := old(db.sessions);
        SessionStore.Pruned(before[id := SessionStore.Ensured(if id in before then Some(before[id]) else None, modelName, now)],
                            db.sessions, maxSessions)
        && db.messages == SessionStore.MessagesIn(old(db.messages), db.sessions.Keys)
        && db.toolCalls == SessionStore.ToolCallsIn(old(db.toolCalls), db.sessions.Keys)
      ensures var found := Restored(persist, sessionId, db);
        data.sessionHistory == (if found.Some? then Some(found.value.messages) else None)
        && data.sessionToolCalls == (if found.Some? then Some(found.value.toolCalls) else None)
        && data.toolCalls == (if found.Some? then found.value.toolCalls else [])
        && data.title == RestoredTitle(found)
        && data.createdAt == (if found.Some? then RestoredStamp(Some(found.value.row.createdAt), now) else now)
        && data.updatedAt == (if found.Some? then RestoredStamp(Some(found.value.row.updatedAt), now) else now)
        && data.toolCache == map[]
    {
      var id := ContextId(sessionId, uuidHex);
      this.config := config;
      this.registry := registry;
      this.env := env;
      agents := map[];
      if persist {
        db.EnsureSession(id, modelName, now);
      }
      var d := new ContextData(id, if persist then db else null, now);
      data := d;
      new;
      var found := if persist && sessionId.Some? && sessionId.value != [] then db.GetSession(sessionId.value) else None;
      Restore(d, found, now);
    }

    /**
     * `create_agent(agent_id)`: a new agent on this context, registered under
     * its id (replacing any earlier one); agent 0 takes the restored history.
     */
    method CreateAgent(agentId: int) returns (agent: Agent)
      modifies this
      ensures Valid() <==> old(Valid())
      ensures fresh(agent)
      ensures agents == old(agents)[agentId := agent]
      ensures agent.agentId == agentId && agent.context == data && agent.config == config
      ensures agent.registry == registry && agent.env == env && agent.lastToolName.None?
      ensures agent.history == InitialHistory(agentId, data.sessionHistory)
    {
      agent := new Agent(agentId, data, config, registry, env);
      if agentId == 0 && data.sessionHistory.Some? {
        agent.history := RestoredHistory(data.sessionHistory.value);
      }
      agents := agents[agentId := agent];
    }

    /** `get_agent(agent_id)` */
    function GetAgent(agentId: int): (r: Option<Agent>)
      reads this
      ensures r.Some? <==> agentId in agents
      ensures r.Some? ==> r.value == agents[agentId]
    {
      if agentId in agents then Some(agents[agentId]) else None
    }
  }
}
