/**
 * SQLite session persistence (agent/session_store.py), with the three tables
 * held in memory: `sessions` keyed by id, and the `messages` and `tool_calls`
 * rows in insertion (autoincrement id) order.  Foreign keys are enforced on
 * every connection, so a row for a missing session is refused, and deleting a
 * session cascades to its rows.  The clock is the `now` parameter.
 */
module SessionStore {
  import opened Wrappers
  import opened Text
  import opened JsonValues

  /** A row of the `sessions` table; NULL columns are `None`. */
  datatype SessionRow = SessionRow(
    createdAt: string,
    updatedAt: string,
    model: Option<string>,
    title: Option<string>,
    promptTokens: int,
    completionTokens: int,
    totalTokens: int)

  datatype MessageRow = MessageRow(sessionId: string, role: string, content: string, createdAt: string)

  /** A `tool_calls` row; the arguments are kept as the dict that `json.dumps` serialised. */
  datatype ToolCallRow = ToolCallRow(sessionId: string, toolName: string, args: Dict, result: Option<string>,
                                     createdAt: string)

  datatype StoredMessage = StoredMessage(role: string, content: string, createdAt: string)

  datatype StoredToolCall = StoredToolCall(toolName: string, args: Dict, result: Option<string>, createdAt: string)

  /** What `get_session` returns for a known id. */
  datatype SessionData = SessionData(sessionId: string, row: SessionRow, messages: seq<StoredMessage>,
                                     toolCalls: seq<StoredToolCall>)

  const TitleMaxLen := 60

  // ===========================================================================
  // Titles (_derive_title)

  /**
   * `_derive_title(content, max_len)`: whitespace collapsed, then cut to
   * `max_len` characters, right-stripped and marked with "...".
   * `content.strip().split()` splits exactly as `content.split()` does.
   */
  function DeriveTitle(content: string, maxLen: nat): (r: string)
    ensures r == [] <==> IsBlank(content)
    ensures |r| <= maxLen + 3
    ensures |Collapse(content)| <= maxLen ==> r == Collapse(content)
    ensures |Collapse(content)| > maxLen ==>
      |r| >= 3 && r[|r| - 3..] == "..." && |r| - 3 <= maxLen
      && r[..|r| - 3] == Collapse(content)[..|r| - 3]
    ensures |Collapse(content)| > maxLen ==> r == RStrip(Collapse(content)[..maxLen]) + "..."
  {
    var cleaned := Collapse(content);
    CollapseShape(content);
    if cleaned == [] then ""
    else if |cleaned| <= maxLen then cleaned
    else
      var head := RStrip(cleaned[..maxLen]);
      assert head == cleaned[..|head|];
      head + "..."
  }

  /** A title is whitespace-collapsed text, possibly followed by the "..." marker. */
  lemma DeriveTitleShape(content: string, maxLen: nat)
    ensures |Collapse(content)| <= maxLen ==> IsCollapsed(DeriveTitle(content, maxLen))
    ensures Collapse(content) == Collapse(Collapse(content))
  {
    CollapseShape(content);
    CollapseIdempotent(content);
  }

  /** The `or title.strip()` fallback of `set_title` never supplies a title. */
  lemma SetTitleFallbackUnused(title: string)
    ensures DeriveTitle(title, TitleMaxLen) == [] ==> Strip(title) == []
  {
  }

  // ===========================================================================
  // Row-level effects

  /** `created_at or self._now()`: an absent or empty timestamp means now. */
  function Timestamp(createdAt: Option<string>, now: string): (t: string)
    ensures createdAt.Some? && createdAt.value != [] ==> t == createdAt.value
    ensures createdAt.None? || createdAt.value == [] ==> t == now
  {
    if createdAt.Some? && createdAt.value != [] then createdAt.value else now
  }

  /** The row `ensure_session` leaves: a new row, or the old one touched. */
  function Ensured(existing: Option<SessionRow>, model: Option<string>, now: string): SessionRow {
    match existing
    case None => SessionRow(now, now, model, None, 0, 0, 0)
    case Some(row) => row.(updatedAt := now, model := if model.Some? then model else row.model)
  }

  /** A new session has no title and zero counters; an existing one changes only `updated_at` and a non-null model. */
  lemma EnsuredEffect(existing: Option<SessionRow>, model: Option<string>, now: string)
    ensures existing.None? ==>
      var r := Ensured(existing, model, now);
      r.createdAt == now && r.updatedAt == now && r.title.None? && r.model == model
      && r.promptTokens == 0 && r.completionTokens == 0 && r.totalTokens == 0
    ensures existing.Some? ==>
      var r := Ensured(existing, model, now);
      r.createdAt == existing.value.createdAt && r.updatedAt == now && r.title == existing.value.title
      && (model.Some? ==> r.model == model) && (model.None? ==> r.model == existing.value.model)
      && r.promptTokens == existing.value.promptTokens && r.completionTokens == existing.value.completionTokens
      && r.totalTokens == existing.value.totalTokens
  {
  }

  predicate TitleEmpty(row: SessionRow) {
    row.title.None? || row.title == Some("")
  }

  /** The row after `save_message`: touched, and titled by a user message when it has no title. */
  function AfterMessage(row: SessionRow, role: string, content: string, ts: string): SessionRow {
    var title := DeriveTitle(content, TitleMaxLen);
    row.(updatedAt := ts,
         title := if role == "user" && title != [] && TitleEmpty(row) then Some(title) else row.title)
  }

  /** Only a user message sets a title, only one that derives a non-empty title, and only over a missing or empty one. */
  lemma AfterMessageTitle(row: SessionRow, role: string, content: string, ts: string)
    ensures AfterMessage(row, role, content, ts).title != row.title <==>
      role == "user" && !IsBlank(content) && TitleEmpty(row)
    ensures AfterMessage(row, role, content, ts).title != row.title ==>
      AfterMessage(row, role, content, ts).title == Some(DeriveTitle(content, TitleMaxLen))
    ensures AfterMessage(row, role, content, ts).updatedAt == ts
    ensures AfterMessage(row, role, content, ts).(updatedAt := row.updatedAt, title := row.title) == row
  {
  }

  /** `increment_token_counts` on one row. */
  function Incremented(row: SessionRow, prompt: int, completion: int, now: string): SessionRow {
    row.(promptTokens := row.promptTokens + prompt,
         completionTokens := row.completionTokens + completion,
         totalTokens := row.totalTokens + (prompt + completion),
         updatedAt := now)
  }

  /** The total grows by exactly what the two counters grow by. */
  lemma IncrementedKeepsTotal(row: SessionRow, prompt: int, completion: int, now: string)
    requires row.totalTokens == row.promptTokens + row.completionTokens
    ensures var r := Incremented(row, prompt, completion, now);
      r.totalTokens == r.promptTokens + r.completionTokens
      && r.totalTokens - row.totalTokens == prompt + completion
  {
  }

  // ===========================================================================
  // Child rows and the cascade

  /** The message rows that belong to one of `keys`, in order. */
  function MessagesIn(ms: seq<MessageRow>, keys: set<string>): (r: seq<MessageRow>)
    ensures |r| <= |ms|
    ensures forall i :: 0 <= i < |r| ==> r[i].sessionId in keys
  {
    if ms == [] then []
    else MessagesIn(ms[..|ms| - 1], keys) + (if ms[|ms| - 1].sessionId in keys then [ms[|ms| - 1]] else [])
  }

  function ToolCallsIn(ts: seq<ToolCallRow>, keys: set<string>): (r: seq<ToolCallRow>)
    ensures |r| <= |ts|
    ensures forall i :: 0 <= i < |r| ==> r[i].sessionId in keys
  {
    if ts == [] then []
    else ToolCallsIn(ts[..|ts| - 1], keys) + (if ts[|ts| - 1].sessionId in keys then [ts[|ts| - 1]] else [])
  }

  /** Filtering rows that all belong to `keys` changes nothing. */
  lemma {:induction false} MessagesInAll(ms: seq<MessageRow>, keys: set<string>)
    requires forall i :: 0 <= i < |ms| ==> ms[i].sessionId in keys
    ensures MessagesIn(ms, keys) == ms
  {
    if ms != [] {
      MessagesInAll(ms[..|ms| - 1], keys);
    }
  }

  lemma {:induction false} ToolCallsInAll(ts: seq<ToolCallRow>, keys: set<string>)
    requires forall i :: 0 <= i < |ts| ==> ts[i].sessionId in keys
    ensures ToolCallsIn(ts, keys) == ts
  {
    if ts != [] {
      ToolCallsInAll(ts[..|ts| - 1], keys);
    }
  }

  /** Two cascades in a row are one cascade to the smaller key set. */
  lemma {:induction false} MessagesInTwice(ms: seq<MessageRow>, a: set<string>, b: set<string>)
    requires b <= a
    ensures MessagesIn(MessagesIn(ms, a), b) == MessagesIn(ms, b)
  {
    if ms != [] {
      var init := ms[..|ms| - 1];
      var last := ms[|ms| - 1];
      MessagesInTwice(init, a, b);
      var once := MessagesIn(init, a) + (if last.sessionId in a then [last] else []);
      if last.sessionId in a {
        assert once[..|once| - 1] == MessagesIn(init, a);
      } else {
        assert once == MessagesIn(init, a);
      }
    }
  }

  lemma {:induction false} ToolCallsInTwice(ts: seq<ToolCallRow>, a: set<string>, b: set<string>)
    requires b <= a
    ensures ToolCallsIn(ToolCallsIn(ts, a), b) == ToolCallsIn(ts, b)
  {
    if ts != [] {
      var init := ts[..|ts| - 1];
      var last := ts[|ts| - 1];
      ToolCallsInTwice(init, a, b);
      var once := ToolCallsIn(init, a) + (if last.sessionId in a then [last] else []);
      if last.sessionId in a {
        assert once[..|once| - 1] == ToolCallsIn(init, a);
      } else {
        assert once == ToolCallsIn(init, a);
      }
    }
  }

  /** One session's messages as `get_session` lists them, in insertion order. */
  function MessagesOf(ms: seq<MessageRow>, id: string): (r: seq<StoredMessage>)
    ensures |r| <= |ms|
  {
    if ms == [] then []
    else
      var last := ms[|ms| - 1];
      MessagesOf(ms[..|ms| - 1], id) + (if last.sessionId == id then [StoredMessage(last.role, last.content, last.createdAt)] else [])
  }

  function ToolCallsOf(ts: seq<ToolCallRow>, id: string): (r: seq<StoredToolCall>)
    ensures |r| <= |ts|
  {
    if ts == [] then []
    else
      var last := ts[|ts| - 1];
      ToolCallsOf(ts[..|ts| - 1], id) + (if last.sessionId == id then [StoredToolCall(last.toolName, last.args, last.result, last.createdAt)] else [])
  }

  /** An appended message shows up last in its own session's history and nowhere else. */
  lemma MessagesOfAppend(ms: seq<MessageRow>, m: MessageRow, id: string)
    ensures MessagesOf(ms + [m], id) ==
      MessagesOf(ms, id) + (if m.sessionId == id then [StoredMessage(m.role, m.content, m.createdAt)] else [])
  {
    assert (ms + [m])[..|ms|] == ms;
  }

  /** The cascade keeps every surviving session's history intact. */
  lemma {:induction false} MessagesOfSurvive(ms: seq<MessageRow>, keys: set<string>, id: string)
    requires id in keys
    ensures MessagesOf(MessagesIn(ms, keys), id) == MessagesOf(ms, id)
  {
    if ms != [] {
      var init := ms[..|ms| - 1];
      var last := ms[|ms| - 1];
      MessagesOfSurvive(init, keys, id);
      var kept := MessagesIn(init, keys);
      if last.sessionId in keys {
        MessagesOfAppend(kept, last, id);
      } else {
        assert MessagesIn(ms, keys) == kept;
      }
    }
  }

  /** A session that is gone has no history left. */
  lemma {:induction false} MessagesOfGone(ms: seq<MessageRow>, keys: set<string>, id: string)
    requires id !in keys
    ensures MessagesOf(MessagesIn(ms, keys), id) == []
  {
    if ms != [] {
      var init := ms[..|ms| - 1];
      var last := ms[|ms| - 1];
      MessagesOfGone(init, keys, id);
      var kept := MessagesIn(init, keys);
      if last.sessionId in keys {
        MessagesOfAppend(kept, last, id);
      } else {
        assert MessagesIn(ms, keys) == kept;
      }
    }
  }

  // ===========================================================================
  // Pruning order

  /** `ORDER BY updated_at ASC, created_at ASC` */
  predicate RowLe(a: SessionRow, b: SessionRow) {
    (StrLe(a.updatedAt, b.updatedAt) && a.updatedAt != b.updatedAt)
    || (a.updatedAt == b.updatedAt && StrLe(a.createdAt, b.createdAt))
  }

  lemma RowLeTotal(a: SessionRow, b: SessionRow)
    ensures RowLe(a, b) || RowLe(b, a)
  {
    StrLeTotal(a.updatedAt, b.updatedAt);
    StrLeTotal(a.createdAt, b.createdAt);
  }

  lemma RowLeTransitive(a: SessionRow, b: SessionRow, c: SessionRow)
    requires RowLe(a, b) && RowLe(b, c)
    ensures RowLe(a, c)
  {
    if a.updatedAt == b.updatedAt && b.updatedAt == c.updatedAt {
      StrLeTransitive(a.createdAt, b.createdAt, c.createdAt);
    } else if a.updatedAt != b.updatedAt && b.updatedAt != c.updatedAt {
      StrLeTransitive(a.updatedAt, b.updatedAt, c.updatedAt);
      if a.updatedAt == c.updatedAt {
        StrLeAntisymmetric(a.updatedAt, b.updatedAt);
      }
    }
  }

  /** The ids of the `n` oldest rows, oldest first; ties are taken in any order, as SQL leaves them. */
  method OldestRows(rows: map<string, SessionRow>, n: nat) returns (ids: seq<string>)
    requires n <= |rows|
    ensures |ids| == n
    ensures forall i, j :: 0 <= i < j < |ids| ==> ids[i] != ids[j]
    ensures forall i :: 0 <= i < |ids| ==> ids[i] in rows
    ensures forall i, k :: 0 <= i < |ids| && k in rows && k !in ids ==> RowLe(rows[ids[i]], rows[k])
  {
    ids := [];
    var remaining := rows.Keys;
    while |ids| < n
      invariant |ids| <= n
      invariant remaining <= rows.Keys
      invariant forall k :: k in rows ==> (k in remaining <==> k !in ids)
      invariant |remaining| == |rows| - |ids|
      invariant forall i, j :: 0 <= i < j < |ids| ==> ids[i] != ids[j]
      invariant forall i :: 0 <= i < |ids| ==> ids[i] in rows
      invariant forall i, k :: 0 <= i < |ids| && k in remaining ==> RowLe(rows[ids[i]], rows[k])
      decreases n - |ids|
    {
      OldestExists(rows, remaining);
      var m :| m in remaining && forall o :: o in remaining ==> RowLe(rows[m], rows[o]);
      ids := ids + [m];
      remaining := remaining - {m};
    }
  }

  /** Every non-empty set of sessions has an oldest one. */
  lemma {:induction false} OldestExists(rows: map<string, SessionRow>, ks: set<string>)
    requires ks != {} && ks <= rows.Keys
    ensures exists k :: k in ks && forall o :: o in ks ==> RowLe(rows[k], rows[o])
    decreases |ks|
  {
    var x :| x in ks;
    var rest := ks - {x};
    if rest == {} {
      assert ks == {x};
      RowLeTotal(rows[x], rows[x]);
    } else {
      OldestExists(rows, rest);
      var m :| m in rest && forall o :: o in rest ==> RowLe(rows[m], rows[o]);
      RowLeTotal(rows[m], rows[x]);
      if RowLe(rows[m], rows[x]) {
        assert forall o :: o in ks ==> RowLe(rows[m], rows[o]);
      } else {
        forall o | o in ks ensures RowLe(rows[x], rows[o]) {
          if o == x {
            RowLeTotal(rows[x], rows[x]);
          } else {
            RowLeTransitive(rows[x], rows[m], rows[o]);
          }
        }
      }
    }
  }

  /**
   * What `_prune_sessions` guarantees: with a positive limit, the oldest
   * sessions beyond the limit are removed and the rest are left as they were;
   * with a limit of zero or less nothing is removed.
   */
  ghost predicate Pruned(before: map<string, SessionRow>, after: map<string, SessionRow>, maxSessions: int) {
    after.Keys <= before.Keys
    && (forall k :: k in after ==> after[k] == before[k])
    && |after| == (if maxSessions > 0 && |before| > maxSessions then maxSessions else |before|)
    && (forall r, k :: r in before && r !in after && k in after ==> RowLe(before[r], before[k]))
  }

  /** Pruning never leaves more than the limit, and with a limit of zero or less it keeps everything. */
  lemma PrunedBounds(before: map<string, SessionRow>, after: map<string, SessionRow>, maxSessions: int)
    requires Pruned(before, after, maxSessions)
    ensures maxSessions > 0 ==> |after| <= maxSessions
    ensures maxSessions <= 0 || |before| <= maxSessions ==> after == before
  {
    if maxSessions <= 0 || |before| <= maxSessions {
      assert after.Keys == before.Keys by {
        CardinalitySubset(after.Keys, before.Keys);
      }
    }
  }

  lemma CardinalitySubset(a: set<string>, b: set<string>)
    requires a <= b && |a| == |b|
    ensures a == b
  {
    if a != b {
      var x :| x in b && x !in a;
      assert a <= b - {x};
      assert |b - {x}| == |b| - 1;
      SubsetSmaller(a, b - {x});
    }
  }

  lemma {:induction false} SubsetSmaller(a: set<string>, b: set<string>)
    requires a <= b
    ensures |a| <= |b|
    decreases |b|
  {
    if a != {} {
      var x :| x in a;
      SubsetSmaller(a - {x}, b - {x});
    }
  }

  // ===========================================================================
  // The store

  /** The three tables as values, for stating what a sequence of calls does to them. */
  datatype Tables = Tables(sessions: map<string, SessionRow>, messages: seq<MessageRow>, toolCalls: seq<ToolCallRow>)

  /** A `save_message` that did not raise: the row appended, the session touched and titled, the table pruned. */
  ghost predicate MessageSaved(before: Tables, after: Tables, id: string, role: string, content: string, ts: string,
                               maxSessions: int)
  {
    id in before.sessions
    && Pruned(before.sessions[id := AfterMessage(before.sessions[id], role, content, ts)], after.sessions, maxSessions)
    && after.messages == MessagesIn(before.messages + [MessageRow(id, role, content, ts)], after.sessions.Keys)
    && after.toolCalls == ToolCallsIn(before.toolCalls, after.sessions.Keys)
  }

  /** A `save_tool_call` that did not raise: the row appended, the session touched, the table pruned. */
  ghost predicate ToolCallSaved(before: Tables, after: Tables, id: string, toolName: string, args: Dict,
                                result: Option<string>, ts: string, maxSessions: int)
  {
    id in before.sessions
    && Pruned(before.sessions[id := before.sessions[id].(updatedAt := ts)], after.sessions, maxSessions)
    && after.messages == MessagesIn(before.messages, after.sessions.Keys)
    && after.toolCalls == ToolCallsIn(before.toolCalls + [ToolCallRow(id, toolName, args, result, ts)], after.sessions.Keys)
  }

  /** The tables after `set_title`. */
  function TitleSet(t: Tables, id: string, title: string, now: string): Tables {
    if IsBlank(title) || id !in t.sessions then t
    else t.(sessions := t.sessions[id := t.sessions[id].(title := Some(DeriveTitle(title, TitleMaxLen)), updatedAt := now)])
  }

  /** The tables after `increment_token_counts`. */
  function TokensAdded(t: Tables, id: string, prompt: int, completion: int, now: string): Tables {
    if id in t.sessions then t.(sessions := t.sessions[id := Incremented(t.sessions[id], prompt, completion, now)])
    else t
  }

  /** One more session of `rows` deleted keeps the deletion loop's account of the table. */
  lemma DeletedStep(before: map<string, SessionRow>, prev: map<string, SessionRow>, next: map<string, SessionRow>,
                    rows: seq<string>, i: nat)
    requires i < |rows| && rows[i] in prev && next == prev - {rows[i]}
    requires prev.Keys <= before.Keys
    requires forall k :: k in before ==> (k in prev <==> k !in rows[..i])
    requires forall k :: k in prev ==> prev[k] == before[k]
    requires |prev| == |before| - i
    ensures next.Keys <= before.Keys
    ensures forall k :: k in before ==> (k in next <==> k !in rows[..i + 1])
    ensures forall k :: k in next ==> next[k] == before[k]
    ensures |next| == |before| - (i + 1)
  {
    assert rows[..i + 1] == rows[..i] + [rows[i]];
    assert next.Keys == prev.Keys - {rows[i]};
  }

  class Store {
    const maxSessions: int
    var sessions: map<string, SessionRow>
    var messages: seq<MessageRow>
    var toolCalls: seq<ToolCallRow>

    /** Foreign-key integrity: every child row belongs to a session. */
    predicate Valid()
      reads this
    {
      (forall i :: 0 <= i < |messages| ==> messages[i].sessionId in sessions)
      && (forall i :: 0 <= i < |toolCalls| ==> toolCalls[i].sessionId in sessions)
    }

    ghost function Snapshot(): Tables
      reads this
    {
      Tables(sessions, messages, toolCalls)
    }

    /** A store over an empty database file. */
    constructor(maxSessions: int)
      ensures Valid()
      ensures this.maxSessions == maxSessions
      ensures sessions == map[] && messages == [] && toolCalls == []
    {
      this.maxSessions := maxSessions;
      sessions := map[];
      messages := [];
      toolCalls := [];
    }

    /** `get_session` */
    function GetSession(id: string): (r: Option<SessionData>)
      reads this
      ensures r.None? <==> id !in sessions
      ensures r.Some? ==>
        r.value.sessionId == id && r.value.row == sessions[id]
        && r.value.messages == MessagesOf(messages, id) && r.value.toolCalls == ToolCallsOf(toolCalls, id)
    {
      if id !in sessions then None
      else Some(SessionData(id, sessions[id], MessagesOf(messages, id), ToolCallsOf(toolCalls, id)))
    }

    /** The `SELECT ... ORDER BY updated_at ASC, created_at ASC LIMIT n` of `_prune_sessions`. */
    method OldestSessions(n: nat) returns (ids: seq<string>)
      requires n <= |sessions|
      ensures |ids| == n
      ensures forall i, j :: 0 <= i < j < |ids| ==> ids[i] != ids[j]
      ensures forall i :: 0 <= i < |ids| ==> ids[i] in sessions
      ensures forall i, k :: 0 <= i < |ids| && k in sessions && k !in ids ==> RowLe(sessions[ids[i]], sessions[k])
    {
      ids := OldestRows(sessions, n);
    }

    /** `DELETE FROM sessions WHERE session_id = ?`, with the cascade to child rows. */
    method DeleteRow(id: string)
      requires Valid()
      modifies this
      ensures Valid()
      ensures sessions == old(sessions) - {id}
      ensures messages == MessagesIn(old(messages), sessions.Keys)
      ensures toolCalls == ToolCallsIn(old(toolCalls), sessions.Keys)
    {
      sessions := sessions - {id};
      messages := MessagesIn(messages, sessions.Keys);
      toolCalls := ToolCallsIn(toolCalls, sessions.Keys);
    }

    /** `_prune_sessions` */
    method PruneSessions()
      requires Valid()
      modifies this
      ensures Valid()
      ensures Pruned(old(sessions), sessions, maxSessions)
      ensures messages == MessagesIn(old(messages), sessions.Keys)
      ensures toolCalls == ToolCallsIn(old(toolCalls), sessions.Keys)
    {
      MessagesInAll(messages, sessions.Keys);
      ToolCallsInAll(toolCalls, sessions.Keys);
      if maxSessions <= 0 {
        return;
      }
      var total := |sessions|;
      if total <= maxSessions {
        return;
      }
      var excess := total - maxSessions;
      var rows := OldestSessions(excess);
      DeleteSessions(rows);
    }

    /** The deletion loop of `_prune_sessions`: each listed session goes, with its rows. */
    method DeleteSessions(rows: seq<string>)
      requires Valid()
      requires forall i, j :: 0 <= i < j < |rows| ==> rows[i] != rows[j]
      requires forall i :: 0 <= i < |rows| ==> rows[i] in sessions
      modifies this
      ensures Valid()
      ensures sessions.Keys <= old(sessions).Keys
      ensures forall k :: k in old(sessions) ==> (k in sessions <==> k !in rows)
      ensures forall k :: k in sessions ==> sessions[k] == old(sessions)[k]
      ensures |sessions| == |old(sessions)| - |rows|
      ensures messages == MessagesIn(old(messages), sessions.Keys)
      ensures toolCalls == ToolCallsIn(old(toolCalls), sessions.Keys)
    {
      MessagesInAll(messages, sessions.Keys);
      ToolCallsInAll(toolCalls, sessions.Keys);
      ghost var before := sessions;
      ghost var ms0 := messages;
      ghost var ts0 := toolCalls;
      var i := 0;
      while i < |rows|
        invariant 0 <= i <= |rows|
        invariant Valid()
        invariant sessions.Keys <= before.Keys
        invariant forall k :: k in before ==> (k in sessions <==> k !in rows[..i])
        invariant forall k :: k in sessions ==> sessions[k] == before[k]
        invariant |sessions| == |before| - i
        invariant messages == MessagesIn(ms0, sessions.Keys)
        invariant toolCalls == ToolCallsIn(ts0, sessions.Keys)
      {
        assert rows[i] in sessions by {
          assert rows[i] !in rows[..i];
        }
        ghost var prev := sessions;
        DeleteRow(rows[i]);
        DeletedStep(before, prev, sessions, rows, i);
        MessagesInTwice(ms0, prev.Keys, sessions.Keys);
        ToolCallsInTwice(ts0, prev.Keys, sessions.Keys);
        i := i + 1;
      }
      assert rows[..i] == rows;
    }

    /** `ensure_session` */
    method EnsureSession(id: string, model: Option<string>, now: string)
      requires Valid()
      modifies this
      ensures Valid()
      ensures Pruned(old(sessions)[id := Ensured(if id in old(sessions) then Some(old(sessions)[id]) else None, model, now)],
                     sessions, maxSessions)
      ensures messages == MessagesIn(old(messages), sessions.Keys)
      ensures toolCalls == ToolCallsIn(old(toolCalls), sessions.Keys)
    {
      if id !in sessions {
        sessions := sessions[id := SessionRow(now, now, model, None, 0, 0, 0)];
      } else {
        var row := sessions[id];
        sessions := sessions[id := row.(updatedAt := now, model := if model.Some? then model else row.model)];
      }
      PruneSessions();
    }

    /**
     * `save_message`. `raised` is the `sqlite3.IntegrityError` the message
     * insert raises for an unknown session under `PRAGMA foreign_keys = ON`:
     * the transaction rolls back, nothing is written and no pruning runs.
     */
    method SaveMessage(id: string, role: string, content: string, createdAt: Option<string>, now: string)
      returns (raised: bool)
      requires Valid()
      modifies this
      ensures Valid()
      ensures raised <==> id !in old(sessions)
      ensures raised ==> sessions == old(sessions) && messages == old(messages) && toolCalls == old(toolCalls)
      ensures !raised ==>
        var ts := Timestamp(createdAt, now);
        Pruned(old(sessions)[id := AfterMessage(old(sessions)[id], role, content, ts)], sessions, maxSessions)
        && messages == MessagesIn(old(messages) + [MessageRow(id, role, content, ts)], sessions.Keys)
        && toolCalls == ToolCallsIn(old(toolCalls), sessions.Keys)
    {
      var timestamp := if createdAt.Some? && createdAt.value != [] then createdAt.value else now;
      if id !in sessions {
        return true;
      }
      messages := messages + [MessageRow(id, role, content, timestamp)];
      sessions := sessions[id := sessions[id].(updatedAt := timestamp)];
      if role == "user" {
        var title := DeriveTitle(content, TitleMaxLen);
        if title != [] && TitleEmpty(sessions[id]) {
          sessions := sessions[id := sessions[id].(title := Some(title))];
        }
      }
      assert sessions == old(sessions)[id := AfterMessage(old(sessions)[id], role, content, timestamp)];
      PruneSessions();
      raised := false;
    }

    /** `set_title`: a blank title changes nothing; other titles are stored derived. */
    method SetTitle(id: string, title: string, now: string)
      modifies this
      ensures messages == old(messages) && toolCalls == old(toolCalls)
      ensures IsBlank(title) || id !in old(sessions) ==> sessions == old(sessions)
      ensures !IsBlank(title) && id in old(sessions) ==>
        sessions == old(sessions)[id := old(sessions)[id].(title := Some(DeriveTitle(title, TitleMaxLen)), updatedAt := now)]
    {
      var clean := DeriveTitle(title, TitleMaxLen);
      if clean == [] {
        clean := Strip(title);
      }
      if clean == [] {
        return;
      }
      if id in sessions {
        sessions := sessions[id := sessions[id].(title := Some(clean), updatedAt := now)];
      }
    }

    /** `save_tool_call`; `raised` is the IntegrityError of the insert for an unknown session, as in `save_message`. */
    method SaveToolCall(id: string, toolName: string, args: Dict, result: Option<string>, createdAt: Option<string>,
                        now: string) returns (raised: bool)
      requires Valid()
      modifies this
      ensures Valid()
      ensures raised <==> id !in old(sessions)
      ensures raised ==> sessions == old(sessions) && messages == old(messages) && toolCalls == old(toolCalls)
      ensures !raised ==>
        var ts := Timestamp(createdAt, now);
        Pruned(old(sessions)[id := old(sessions)[id].(updatedAt := ts)], sessions, maxSessions)
        && messages == MessagesIn(old(messages), sessions.Keys)
        && toolCalls == ToolCallsIn(old(toolCalls) + [ToolCallRow(id, toolName, args, result, ts)], sessions.Keys)
    {
      var timestamp := if createdAt.Some? && createdAt.value != [] then createdAt.value else now;
      if id !in sessions {
        return true;
      }
      toolCalls := toolCalls + [ToolCallRow(id, toolName, args, result, timestamp)];
      sessions := sessions[id := sessions[id].(updatedAt := timestamp)];
      PruneSessions();
      raised := false;
    }

    /** `update_token_counts`: the three counters are overwritten. */
    method UpdateTokenCounts(id: string, prompt: int, completion: int, total: int, now: string)
      modifies this
      ensures messages == old(messages) && toolCalls == old(toolCalls)
      ensures id !in old(sessions) ==> sessions == old(sessions)
      ensures id in old(sessions) ==>
        sessions == old(sessions)[id := old(sessions)[id].(promptTokens := prompt, completionTokens := completion,
                                                           totalTokens := total, updatedAt := now)]
    {
      if id in sessions {
        sessions := sessions[id := sessions[id].(promptTokens := prompt, completionTokens := completion,
                                                 totalTokens := total, updatedAt := now)];
      }
    }

    /** `increment_token_counts` */
    method IncrementTokenCounts(id: string, prompt: int, completion: int, now: string)
      modifies this
      ensures messages == old(messages) && toolCalls == old(toolCalls)
      ensures id !in old(sessions) ==> sessions == old(sessions)
      ensures id in old(sessions) ==> sessions == old(sessions)[id := Incremented(old(sessions)[id], prompt, completion, now)]
    {
      var total := prompt + completion;
      if id in sessions {
        var row := sessions[id];
        sessions := sessions[id := row.(promptTokens := row.promptTokens + prompt,
                                        completionTokens := row.completionTokens + completion,
                                        totalTokens := row.totalTokens + total,
                                        updatedAt := now)];
      }
    }

    /** `delete_session`: true iff a row was deleted; the session's messages and tool calls go with it. */
    method DeleteSession(id: string) returns (deleted: bool)
      requires Valid()
      modifies this
      ensures Valid()
      ensures deleted <==> id in old(sessions)
      ensures sessions == old(sessions) - {id}
      ensures messages == MessagesIn(old(messages), sessions.Keys)
      ensures toolCalls == ToolCallsIn(old(toolCalls), sessions.Keys)
    {
      deleted := id in sessions;
      DeleteRow(id);
    }
  }
}
