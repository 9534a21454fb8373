/**
 * The agent (agent/agent.py): history and session-title bookkeeping, tool
 * timeouts, the per-session tool-result cache, the dispatch of a batch of
 * tool calls, and the monologue loop.  The LLM and the tools are inputs:
 * every iteration of the loop is given as a `Turn`, and every execution of
 * a tool as a `ToolOutcome`.  The clock is the `now` parameter.
 *
 * The context's shared `data` dict is the class `ContextData`, declared here
 * because the agent reads and writes it; the context object that owns it
 * and the agents is in module AgentContext.
 */
module Agent {
  import opened Wrappers
  import opened Text
  import opened JsonValues
  import OutputParser
  import SessionStore

  type ToolCall = OutputParser.ToolCall

  /** The `Response` a tool returns. */
  datatype Response = Response(message: string, breakLoop: bool)

  /** A history entry; entries restored from a stored session carry no timestamp. */
  datatype HistoryEntry = HistoryEntry(role: string, content: string, createdAt: Option<string>)

  /** What the agent asks of a registered tool. */
  datatype ToolInfo = ToolInfo(timeoutSeconds: Option<real>, shouldCache: Dict -> bool, parallelSafe: Dict -> bool)

  /** How `asyncio.wait_for(_run(), timeout)` ends: the tool's response after its hooks, a timeout, or an exception. */
  datatype ToolOutcome = Completed(response: Response) | TimedOut | Raised(error: string)

  /** The fields of `AgentConfig` the agent reads. */
  datatype AgentConfig = AgentConfig(
    autoSave: bool,                 // session.auto_save
    cacheEnabled: bool,             // tool_execution.cache_enabled
    timeouts: map<string, real>,    // tool_execution.timeouts
    defaultTimeout: real,           // tool_execution.default_timeout
    maxIterations: int)             // max_monologue_iterations

  /** The tool registry: the sorted `tool_names`, `get_tool` and `get_tool_schemas`. */
  datatype Registry = Registry(toolNames: seq<string>, tools: map<string, ToolInfo>,
                               schemas: map<string, OutputParser.ToolSchema>)

  /**
   * Library behaviour outside the model: `{:.1f}` formatting, the `json.dumps`
   * of the cache key, and what the output parser takes from the environment.
   */
  datatype Externals = Externals(formatSeconds: real -> string, argsBlob: Dict -> string, parser: OutputParser.Oracles)

  // ===========================================================================
  // Roles and titles

  predicate IsOllamaRole(role: string) {
    role == "user" || role == "assistant" || role == "system"
  }

  /** The role written to history: user, assistant and system are kept, anything else becomes system. */
  function MapRole(role: string): (r: string)
    ensures IsOllamaRole(r)
    ensures r == role <==> IsOllamaRole(role)
    ensures !IsOllamaRole(role) ==> r == "system"
  {
    if IsOllamaRole(role) then role else "system"
  }

  /** `_derive_session_title`, the same rule as the session store's, with a limit of 60. */
  function DeriveSessionTitle(content: string): (r: string)
    ensures r == [] <==> IsBlank(content)
    ensures |r| <= SessionStore.TitleMaxLen + 3
    ensures |Collapse(content)| <= SessionStore.TitleMaxLen ==> r == Collapse(content)
    ensures |Collapse(content)| > SessionStore.TitleMaxLen ==> r == RStrip(Collapse(content)[..SessionStore.TitleMaxLen]) + "..."
  {
    SessionStore.DeriveTitle(content, SessionStore.TitleMaxLen)
  }

  const SummaryLimit := 200

  /** `_summarize_text`: whitespace collapsed, cut to 200 characters, right-stripped and marked with "...". */
  function SummarizeText(text: string): (r: string)
    ensures r == [] <==> IsBlank(text)
    ensures |r| <= SummaryLimit + 3
    ensures |Collapse(text)| <= SummaryLimit ==> r == Collapse(text)
    ensures |Collapse(text)| > SummaryLimit ==>
      |r| >= 3 && r[|r| - 3..] == "..." && r[..|r| - 3] == Collapse(text)[..|r| - 3]
    ensures |Collapse(text)| > SummaryLimit ==> r == RStrip(Collapse(text)[..SummaryLimit]) + "..."
  {
    var clean := Collapse(text);
    CollapseShape(text);
    if |clean| <= SummaryLimit then clean
    else
      var head := RStrip(clean[..SummaryLimit]);
      assert head == clean[..|head|];
      head + "..."
  }

  /** Without the title's explicit empty check the summary still follows the same rule. */
  lemma SummaryIsTitleRule(text: string)
    ensures SummarizeText(text) == SessionStore.DeriveTitle(text, SummaryLimit)
  {
    CollapseShape(text);
  }

  predicate HasTitle(title: Option<string>) {
    title.Some? && title.value != []
  }

  /** The context's title after `append_message(role, content)`. */
  function TitleAfter(title: Option<string>, role: string, content: string): (r: Option<string>)
    ensures r != title ==> MapRole(role) == "user" && !HasTitle(title) && r == Some(DeriveSessionTitle(content))
  {
    var derived := DeriveSessionTitle(content);
    if MapRole(role) == "user" && !HasTitle(title) && derived != [] then Some(derived) else title
  }

  /** The first user message with a non-blank text names the session, and later messages never rename it. */
  lemma {:induction false} FirstUserMessageNames(title: Option<string>, first: string, later: seq<(string, string)>)
    requires !HasTitle(title) && !IsBlank(first)
    ensures TitlesAfter(TitleAfter(title, "user", first), later) == Some(DeriveSessionTitle(first))
  {
    TitlesKeepTitle(TitleAfter(title, "user", first), later);
  }

  function TitlesAfter(title: Option<string>, messages: seq<(string, string)>): Option<string>
    decreases |messages|
  {
    if messages == [] then title
    else TitlesAfter(TitleAfter(title, messages[0].0, messages[0].1), messages[1..])
  }

  lemma {:induction false} TitlesKeepTitle(title: Option<string>, messages: seq<(string, string)>)
    requires HasTitle(title)
    ensures TitlesAfter(title, messages) == title
    decreases |messages|
  {
    if messages != [] {
      TitlesKeepTitle(TitleAfter(title, messages[0].0, messages[0].1), messages[1..]);
    }
  }

  // ===========================================================================
  // Timeouts and the tool cache

  /** `_get_tool_timeout`: the per-tool configured timeout, then the tool's own, then the default. */
  function GetToolTimeout(name: string, cfg: AgentConfig, tool: ToolInfo): (r: real)
    ensures name in cfg.timeouts ==> r == cfg.timeouts[name]
    ensures name !in cfg.timeouts && tool.timeoutSeconds.Some? ==> r == tool.timeoutSeconds.value
    ensures name !in cfg.timeouts && tool.timeoutSeconds.None? ==> r == cfg.defaultTimeout
  {
    if name in cfg.timeouts then cfg.timeouts[name]
    else if tool.timeoutSeconds.Some? then tool.timeoutSeconds.value
    else cfg.defaultTimeout
  }

  /** `_tool_cache_key` */
  function CacheKey(call: ToolCall, env: Externals): string {
    call.name + ":" + env.argsBlob(call.args)
  }

  /** The response of a run that was not served from the cache. */
  function OutcomeResponse(name: string, outcome: ToolOutcome, timeout: real, env: Externals): (r: Response)
    ensures outcome.Completed? ==> r == outcome.response
    ensures !outcome.Completed? ==> !r.breakLoop && StartsWith(r.message, "[Tool '" + name + "' ")
  {
    match outcome
    case Completed(resp) => resp
    case TimedOut =>
      var m := "[Tool '" + name + "' timed out after " + env.formatSeconds(timeout) + "s]";
      assert m == ("[Tool '" + name + "' ") + ("timed out after " + env.formatSeconds(timeout) + "s]");
      Response(m, false)
    case Raised(e) =>
      var m := "[Tool '" + name + "' error: " + e + "]";
      assert m == ("[Tool '" + name + "' ") + ("error: " + e + "]");
      Response(m, false)
  }

  predicate CanCache(call: ToolCall, tool: ToolInfo, cfg: AgentConfig) {
    cfg.cacheEnabled && tool.shouldCache(call.args)
  }

  /** The response, whether it came from the cache, and the cache afterwards. */
  datatype CacheStep = CacheStep(response: Response, cached: bool, cache: map<string, Response>)

  /** `_execute_tool_with_instance` over the session's cache. */
  function ExecutedWithCache(cache: map<string, Response>, call: ToolCall, tool: ToolInfo, outcome: ToolOutcome,
                             cfg: AgentConfig, env: Externals): CacheStep
  {
    var key := CacheKey(call, env);
    if CanCache(call, tool, cfg) && key in cache then CacheStep(cache[key], true, cache)
    else
      var r := OutcomeResponse(call.name, outcome, GetToolTimeout(call.name, cfg, tool), env);
      CacheStep(r, false, if CanCache(call, tool, cfg) then cache[key := r] else cache)
  }

  /** A repeated cacheable call returns the stored response, marked cached, whatever the tool would do now. */
  lemma RepeatedCallCached(cache: map<string, Response>, call: ToolCall, tool: ToolInfo, first: ToolOutcome,
                           again: ToolOutcome, cfg: AgentConfig, env: Externals)
    requires CanCache(call, tool, cfg)
    ensures var s1 := ExecutedWithCache(cache, call, tool, first, cfg, env);
      ExecutedWithCache(s1.cache, call, tool, again, cfg, env) == CacheStep(s1.response, true, s1.cache)
  {
  }

  /** A call that cannot be cached always runs the tool and leaves the cache alone. */
  lemma UncachableRuns(cache: map<string, Response>, call: ToolCall, tool: ToolInfo, outcome: ToolOutcome,
                       cfg: AgentConfig, env: Externals)
    requires !CanCache(call, tool, cfg)
    ensures var s := ExecutedWithCache(cache, call, tool, outcome, cfg, env);
      !s.cached && s.cache == cache
      && s.response == OutcomeResponse(call.name, outcome, GetToolTimeout(call.name, cfg, tool), env)
  {
  }

  /** Only the entry under the call's own key is ever written. */
  lemma CacheWritesOwnKey(cache: map<string, Response>, call: ToolCall, tool: ToolInfo, outcome: ToolOutcome,
                          cfg: AgentConfig, env: Externals, other: string)
    requires other != CacheKey(call, env)
    ensures var s := ExecutedWithCache(cache, call, tool, outcome, cfg, env);
      (other in s.cache <==> other in cache) && (other in cache ==> s.cache[other] == cache[other])
  {
  }

  // ===========================================================================
  // A batch of tool calls (_execute_tool_calls, _run_tool_call)

  function UnknownToolMessage(name: string, toolNames: seq<string>): string {
    "[Error: Unknown tool '" + name + "'. Available tools: " + Join(toolNames, ", ") + "]"
  }

  /** `_run_tool_call` on the session's cache. */
  function RunOne(cache: map<string, Response>, call: ToolCall, outcome: ToolOutcome, reg: Registry, cfg: AgentConfig,
                  env: Externals): CacheStep
  {
    if call.name !in reg.tools then CacheStep(Response(UnknownToolMessage(call.name, reg.toolNames), false), false, cache)
    else ExecutedWithCache(cache, call, reg.tools[call.name], outcome, cfg, env)
  }

  datatype Ran = Ran(results: seq<(ToolCall, Response, bool)>, cache: map<string, Response>)

  /** The calls run one after another in input order; `outcomes(i)` is how the `i`-th call's tool run ends. */
  function RunCalls(cache: map<string, Response>, calls: seq<ToolCall>, outcomes: nat -> ToolOutcome, reg: Registry,
                    cfg: AgentConfig, env: Externals): Ran
  {
    if calls == [] then Ran([], cache)
    else
      var prev := RunCalls(cache, calls[..|calls| - 1], outcomes, reg, cfg, env);
      var s := RunOne(prev.cache, calls[|calls| - 1], outcomes(|calls| - 1), reg, cfg, env);
      Ran(prev.results + [(calls[|calls| - 1], s.response, s.cached)], s.cache)
  }

  /** There is one result per call, in input order, and an unknown tool gives the error naming the registered tools. */
  lemma {:induction false} RunCallsInOrder(cache: map<string, Response>, calls: seq<ToolCall>, outcomes: nat -> ToolOutcome,
                                           reg: Registry, cfg: AgentConfig, env: Externals)
    ensures var r := RunCalls(cache, calls, outcomes, reg, cfg, env).results;
      |r| == |calls|
      && (forall i :: 0 <= i < |calls| ==> r[i].0 == calls[i])
      && (forall i :: 0 <= i < |calls| && calls[i].name !in reg.tools ==>
            r[i].1 == Response(UnknownToolMessage(calls[i].name, reg.toolNames), false) && !r[i].2)
  {
    if calls != [] {
      RunCallsInOrder(cache, calls[..|calls| - 1], outcomes, reg, cfg, env);
    }
  }

  /** The condition of the `asyncio.gather` path: every tool is known and parallel-safe for its arguments. */
  predicate AllParallelSafe(calls: seq<ToolCall>, reg: Registry) {
    forall i :: 0 <= i < |calls| ==> calls[i].name in reg.tools && reg.tools[calls[i].name].parallelSafe(calls[i].args)
  }

  // ===========================================================================
  // The monologue loop

  /** What the LLM call of one iteration produced. */
  datatype LlmReply = Reply(text: string) | ModelFailure(error: string) | ConnectionFailure(error: string)
                    | OtherFailure(error: string)

  /**
   * One iteration as the loop sees it: the LLM reply, the token estimates,
   * and the tool calls extracted from the reply paired with the responses
   * `_execute_tool_calls` gave for them (empty when none was extracted).
   * `TurnOf` below builds it from what the environment plays.
   */
  datatype Turn = Turn(reply: LlmReply, promptTokens: int, completionTokens: int, results: seq<(ToolCall, Response)>)

  const NoToolLimit := 5

  const Reminder := "Reminder: You must use a tool call JSON to proceed. Example:\n"
                    + "```json\n{\"tool_name\":\"response\",\"tool_args\":{\"text\":\"<final answer>\"}}\n```\n"
                    + "Use the `response` tool to deliver your final answer."

  const Fallback := "[Agent reached maximum iterations without producing a final response]"

  function LlmErrorMessage(reply: LlmReply): string
    requires !reply.Reply?
  {
    match reply
    case ModelFailure(e) => "[LLM Model Error: " + e + "]"
    case ConnectionFailure(e) => "[LLM Connection Error: " + e + "]"
    case OtherFailure(e) => "[LLM Error: " + e + "]"
  }

  function ToolResultMessage(call: ToolCall, response: Response): string {
    "[Tool '" + call.name + "' result]:\n" + response.message
  }

  /** The system entries recording each tool result, in order. */
  function ToolResultEntries(results: seq<(ToolCall, Response)>, now: string): (r: seq<HistoryEntry>)
    ensures |r| == |results|
    ensures forall i :: 0 <= i < |results| ==>
      r[i] == HistoryEntry("system", ToolResultMessage(results[i].0, results[i].1), Some(now))
  {
    if results == [] then []
    else ToolResultEntries(results[..|results| - 1], now)
         + [HistoryEntry("system", ToolResultMessage(results[|results| - 1].0, results[|results| - 1].1), Some(now))]
  }

  /** The message of the first response that breaks the loop. */
  function FirstBreak(results: seq<(ToolCall, Response)>): Option<string> {
    if results == [] then None
    else
      var prior := FirstBreak(results[..|results| - 1]);
      if prior.Some? then prior
      else if results[|results| - 1].1.breakLoop then Some(results[|results| - 1].1.message)
      else None
  }

  /** `FirstBreak` finds the first breaking response, and nothing when none breaks. */
  lemma {:induction false} FirstBreakIsFirst(results: seq<(ToolCall, Response)>)
    ensures FirstBreak(results).None? <==> forall i :: 0 <= i < |results| ==> !results[i].1.breakLoop
    ensures forall j :: 0 <= j < |results| && results[j].1.breakLoop
                        && (forall i :: 0 <= i < j ==> !results[i].1.breakLoop) ==>
      FirstBreak(results) == Some(results[j].1.message)
  {
    if results != [] {
      var init := results[..|results| - 1];
      FirstBreakIsFirst(init);
      forall j | 0 <= j < |results| && results[j].1.breakLoop && (forall i :: 0 <= i < j ==> !results[i].1.breakLoop)
        ensures FirstBreak(results) == Some(results[j].1.message)
      {
        if j < |init| {
          assert init[j] == results[j];
          assert forall i :: 0 <= i < j ==> !init[i].1.breakLoop;
        } else {
          assert forall i :: 0 <= i < |init| ==> !init[i].1.breakLoop;
        }
      }
      if FirstBreak(results).None? {
        assert forall i :: 0 <= i < |init| ==> init[i] == results[i];
      }
    }
  }

  /** `data["last_tool_name"]` after the results are recorded. */
  function LastToolOf(results: seq<(ToolCall, Response)>, prior: Option<string>): Option<string> {
    if results == [] then prior else Some(results[|results| - 1].0.name)
  }

  /** The tool-result functions on one more result. */
  lemma ResultsSnoc(results: seq<(ToolCall, Response)>, j: nat, now: string, prior: Option<string>)
    requires j < |results|
    ensures ToolResultEntries(results[..j + 1], now)
      == ToolResultEntries(results[..j], now) + [HistoryEntry("system", ToolResultMessage(results[j].0, results[j].1), Some(now))]
    ensures FirstBreak(results[..j + 1])
      == if FirstBreak(results[..j]).Some? then FirstBreak(results[..j])
         else if results[j].1.breakLoop then Some(results[j].1.message) else None
    ensures LastToolOf(results[..j + 1], prior) == Some(results[j].0.name)
    ensures ResultCalls(results[..j + 1], now) == ResultCalls(results[..j], now) + [StoredCall(results[j], now)]
    ensures ResultWrites(results[..j + 1]) == ResultWrites(results[..j]) + ResultWrite(results[j])
  {
    assert results[..j + 1][..j] == results[..j];
  }

  /** How an iteration ends the monologue: with an LLM failure's text, or with the first breaking response. */
  function TurnStop(t: Turn): Option<string> {
    if !t.reply.Reply? then Some(LlmErrorMessage(t.reply))
    else if t.results == [] then None
    else FirstBreak(t.results)
  }

  /** The history entries one iteration adds, given the count of tool-less iterations before it. */
  function TurnEntries(t: Turn, noTool: nat, now: string): seq<HistoryEntry> {
    if !t.reply.Reply? then [HistoryEntry("assistant", LlmErrorMessage(t.reply), Some(now))]
    else
      [HistoryEntry("assistant", t.reply.text, Some(now))]
      + (if t.results != [] then ToolResultEntries(t.results, now)
         else if noTool + 1 >= NoToolLimit then [HistoryEntry("system", Reminder, Some(now))]
         else [])
  }

  /** `no_tool_count` after an iteration that did not end the monologue. */
  function TurnNoTool(t: Turn, noTool: nat): nat {
    if t.results != [] then 0
    else if noTool + 1 >= NoToolLimit then 0
    else noTool + 1
  }

  function TurnLastTool(t: Turn, lastTool: Option<string>): Option<string> {
    if t.reply.Reply? then LastToolOf(t.results, lastTool) else lastTool
  }

  /** The history entries added, the return value, the last tool name, and the iterations run. */
  datatype MonoRun = MonoRun(entries: seq<HistoryEntry>, result: string, lastTool: Option<string>, iterations: nat)

  /** The loop from iteration number `done` (0-based), with `noTool` iterations in a row without a tool call. */
  function MonoFrom(turns: nat -> Turn, maxIter: int, done: nat, noTool: nat, lastTool: Option<string>, now: string): MonoRun
    decreases if done < maxIter then maxIter - done else 0
  {
    if done >= maxIter then MonoRun([], Fallback, lastTool, done)
    else
      var t := turns(done);
      TurnThen(t, noTool, lastTool, now, done,
               MonoFrom(turns, maxIter, done + 1, TurnNoTool(t, noTool), TurnLastTool(t, lastTool), now))
  }

  /** Iteration number `done` with turn `t`, followed, unless it stops the loop, by the run `rest`. */
  function TurnThen(t: Turn, noTool: nat, lastTool: Option<string>, now: string, done: nat, rest: MonoRun): MonoRun {
    var entries := TurnEntries(t, noTool, now);
    match TurnStop(t)
    case Some(m) => MonoRun(entries, m, TurnLastTool(t, lastTool), done + 1)
    case None => rest.(entries := entries + rest.entries)
  }

  /** An iteration that ends the loop: its entries, its stop text, and nothing after it. */
  lemma MonoStepStops(turns: nat -> Turn, maxIter: int, done: nat, noTool: nat, lastTool: Option<string>, now: string)
    requires done < maxIter && TurnStop(turns(done)).Some?
    ensures var r := MonoFrom(turns, maxIter, done, noTool, lastTool, now);
      r.entries == TurnEntries(turns(done), noTool, now) && r.result == TurnStop(turns(done)).value
      && r.lastTool == TurnLastTool(turns(done), lastTool) && r.iterations == done + 1
    ensures MonoLog(turns, maxIter, done, noTool, now)
         == Log(TurnCalls(turns(done), now), TurnWrites(turns(done), noTool))
  {
  }

  /** An iteration that does not end the loop: its entries, then the rest of the run. */
  lemma MonoStepContinues(turns: nat -> Turn, maxIter: int, done: nat, noTool: nat, lastTool: Option<string>,
                          now: string)
    requires done < maxIter && TurnStop(turns(done)).None?
    ensures var r := MonoFrom(turns, maxIter, done, noTool, lastTool, now);
      var next := MonoFrom(turns, maxIter, done + 1, TurnNoTool(turns(done), noTool), TurnLastTool(turns(done), lastTool), now);
      r.entries == TurnEntries(turns(done), noTool, now) + next.entries
      && r.result == next.result && r.lastTool == next.lastTool && r.iterations == next.iterations
    ensures MonoLog(turns, maxIter, done, noTool, now)
         == LogThen(Log(TurnCalls(turns(done), now), TurnWrites(turns(done), noTool)),
                    MonoLog(turns, maxIter, done + 1, TurnNoTool(turns(done), noTool), now))
  {
  }

  /** At most `max_monologue_iterations` iterations run, and only their turns matter. */
  lemma {:induction false} MonoUsesOnlyAllowedTurns(t1: nat -> Turn, t2: nat -> Turn, maxIter: int, done: nat,
                                                    noTool: nat, lastTool: Option<string>, now: string)
    requires forall i :: 0 <= i < maxIter ==> t1(i) == t2(i)
    ensures MonoFrom(t1, maxIter, done, noTool, lastTool, now) == MonoFrom(t2, maxIter, done, noTool, lastTool, now)
    ensures var r := MonoFrom(t1, maxIter, done, noTool, lastTool, now);
      done <= r.iterations && (done < maxIter ==> r.iterations <= maxIter)
    decreases if done < maxIter then maxIter - done else 0
  {
    if done < maxIter {
      var t := t1(done);
      if TurnStop(t).None? {
        MonoUsesOnlyAllowedTurns(t1, t2, maxIter, done + 1, TurnNoTool(t, noTool), TurnLastTool(t, lastTool), now);
      }
    }
  }

  /** One iteration whose reply calls no tool, as `MonoFrom` takes it. */
  lemma QuietStep(turns: nat -> Turn, maxIter: int, done: nat, noTool: nat, lastTool: Option<string>, now: string)
    requires done < maxIter && turns(done).reply.Reply? && turns(done).results == []
    ensures var r := MonoFrom(turns, maxIter, done, noTool, lastTool, now);
      var next := MonoFrom(turns, maxIter, done + 1, TurnNoTool(turns(done), noTool), lastTool, now);
      r.entries == TurnEntries(turns(done), noTool, now) + next.entries
      && r.result == next.result && r.lastTool == next.lastTool && r.iterations == next.iterations
  {
  }

  /** A tool-less iteration with text `text`, while the count stays below the limit. */
  lemma QuietCount(turns: nat -> Turn, maxIter: int, done: nat, noTool: nat, lastTool: Option<string>, now: string,
                   text: string)
    requires done < maxIter && noTool + 1 < NoToolLimit
    requires turns(done).reply == Reply(text) && turns(done).results == []
    ensures var r := MonoFrom(turns, maxIter, done, noTool, lastTool, now);
      var next := MonoFrom(turns, maxIter, done + 1, noTool + 1, lastTool, now);
      r.entries == [HistoryEntry("assistant", text, Some(now))] + next.entries
      && r.result == next.result && r.lastTool == next.lastTool && r.iterations == next.iterations
  {
    QuietStep(turns, maxIter, done, noTool, lastTool, now);
  }

  /** The tool-less iteration that reaches the limit: its text, then the reminder, and the count restarts. */
  lemma QuietRemind(turns: nat -> Turn, maxIter: int, done: nat, lastTool: Option<string>, now: string, text: string)
    requires done < maxIter
    requires turns(done).reply == Reply(text) && turns(done).results == []
    ensures var r := MonoFrom(turns, maxIter, done, NoToolLimit - 1, lastTool, now);
      var next := MonoFrom(turns, maxIter, done + 1, 0, lastTool, now);
      r.entries == [HistoryEntry("assistant", text, Some(now)), HistoryEntry("system", Reminder, Some(now))] + next.entries
      && r.result == next.result && r.lastTool == next.lastTool && r.iterations == next.iterations
  {
    QuietStep(turns, maxIter, done, NoToolLimit - 1, lastTool, now);
    QuietLastTurn(turns(done), now, text);
  }

  lemma QuietLastTurn(t: Turn, now: string, text: string)
    requires t.reply == Reply(text) && t.results == []
    ensures TurnNoTool(t, NoToolLimit - 1) == 0
    ensures TurnEntries(t, NoToolLimit - 1, now)
      == [HistoryEntry("assistant", text, Some(now)), HistoryEntry("system", Reminder, Some(now))]
  {
  }

  /** The assistant entries of tool-less iterations with replies `texts`. */
  function QuietEntries(texts: seq<string>, now: string): seq<HistoryEntry> {
    if texts == [] then [] else [HistoryEntry("assistant", texts[0], Some(now))] + QuietEntries(texts[1..], now)
  }

  /** Iterations `done`, `done + 1`, ... reply with `texts` in turn and call no tool. */
  predicate QuietFrom(turns: nat -> Turn, done: nat, texts: seq<string>)
    decreases |texts|
  {
    texts == [] || (turns(done).reply == Reply(texts[0]) && turns(done).results == [] && QuietFrom(turns, done + 1, texts[1..]))
  }

  /** Runs `r`, `next`, `rest` of three consecutive stretches of the loop add up. */
  lemma Chain(r: MonoRun, next: MonoRun, rest: MonoRun, x: HistoryEntry, middle: seq<HistoryEntry>, last: HistoryEntry)
    requires r.entries == [x] + next.entries
    requires r.result == next.result && r.lastTool == next.lastTool && r.iterations == next.iterations
    requires next.entries == middle + [last] + rest.entries
    requires next.result == rest.result && next.lastTool == rest.lastTool && next.iterations == rest.iterations
    ensures r.entries == [x] + middle + [last] + rest.entries
    ensures r.result == rest.result && r.lastTool == rest.lastTool && r.iterations == rest.iterations
  {
    assert [x] + (middle + [last] + rest.entries) == [x] + middle + [last] + rest.entries;
  }

  /** Run `r` records `texts`, then the reminder, then continues as run `rest`. */
  predicate RemindedBefore(r: MonoRun, rest: MonoRun, texts: seq<string>, now: string) {
    r.entries == QuietEntries(texts, now) + [HistoryEntry("system", Reminder, Some(now))] + rest.entries
    && r.result == rest.result && r.lastTool == rest.lastTool && r.iterations == rest.iterations
  }

  /**
   * From `noTool` tool-less iterations in a row, the next `NoToolLimit - noTool`
   * iterations, whose replies are `texts` and call no tool, record those texts,
   * then one reminder, and the count restarts.
   */
  lemma {:induction false} QuietTurns(turns: nat -> Turn, maxIter: int, done: nat, noTool: nat, lastTool: Option<string>,
                                      now: string, texts: seq<string>, end: nat)
    requires noTool < NoToolLimit && |texts| == NoToolLimit - noTool && end == done + |texts| && end <= maxIter
    requires QuietFrom(turns, done, texts)
    ensures RemindedBefore(MonoFrom(turns, maxIter, done, noTool, lastTool, now), MonoFrom(turns, maxIter, end, 0, lastTool, now),
                           texts, now)
    decreases |texts|
  {
    var r := MonoFrom(turns, maxIter, done, noTool, lastTool, now);
    var rest := MonoFrom(turns, maxIter, end, 0, lastTool, now);
    var reminder := HistoryEntry("system", Reminder, Some(now));
    var x := HistoryEntry("assistant", texts[0], Some(now));
    if noTool + 1 < NoToolLimit {
      assert RemindedBefore(r, rest, texts, now) by {
        var next := MonoFrom(turns, maxIter, done + 1, noTool + 1, lastTool, now);
        var middle := QuietEntries(texts[1..], now);
        assert r.entries == [x] + next.entries
          && r.result == next.result && r.lastTool == next.lastTool && r.iterations == next.iterations by {
          QuietCount(turns, maxIter, done, noTool, lastTool, now, texts[0]);
        }
        assert next.entries == middle + [reminder] + rest.entries
          && next.result == rest.result && next.lastTool == rest.lastTool && next.iterations == rest.iterations by {
          QuietTurns(turns, maxIter, done + 1, noTool + 1, lastTool, now, texts[1..], end);
        }
        assert QuietEntries(texts, now) == [x] + middle;
        Chain(r, next, rest, x, middle, reminder);
      }
    } else {
      assert RemindedBefore(r, rest, texts, now) by {
        assert r.entries == [x, reminder] + rest.entries
          && r.result == rest.result && r.lastTool == rest.lastTool && r.iterations == rest.iterations by {
          QuietRemind(turns, maxIter, done, lastTool, now, texts[0]);
        }
        assert QuietEntries(texts, now) + [reminder] + rest.entries == [x, reminder] + rest.entries by {
          assert QuietEntries(texts[1..], now) == [];
          assert QuietEntries(texts, now) == [x];
        }
      }
    }
  }

  lemma FiveQuietFrom(turns: nat -> Turn, done: nat, a: string, b: string, c: string, d: string, f: string)
    requires turns(done).reply == Reply(a) && turns(done + 1).reply == Reply(b) && turns(done + 2).reply == Reply(c)
    requires turns(done + 3).reply == Reply(d) && turns(done + 4).reply == Reply(f)
    requires forall i :: done <= i < done + 5 ==> turns(i).results == []
    ensures QuietFrom(turns, done, [a, b, c, d, f])
  {
    assert [f][1..] == [] && [d, f][1..] == [f] && [c, d, f][1..] == [d, f] && [b, c, d, f][1..] == [c, d, f];
    assert [a, b, c, d, f][1..] == [b, c, d, f];
    assert QuietFrom(turns, done + 4, [f]);
    assert QuietFrom(turns, done + 3, [d, f]);
    assert QuietFrom(turns, done + 2, [c, d, f]);
    assert QuietFrom(turns, done + 1, [b, c, d, f]);
  }

  lemma FiveQuietEntries(a: string, b: string, c: string, d: string, f: string, now: string)
    ensures QuietEntries([a, b, c, d, f], now)
      == [HistoryEntry("assistant", a, Some(now)), HistoryEntry("assistant", b, Some(now)),
          HistoryEntry("assistant", c, Some(now)), HistoryEntry("assistant", d, Some(now)),
          HistoryEntry("assistant", f, Some(now))]
  {
    assert [f][1..] == [] && [d, f][1..] == [f] && [c, d, f][1..] == [d, f] && [b, c, d, f][1..] == [c, d, f];
    assert [a, b, c, d, f][1..] == [b, c, d, f];
    var s := seq(5, i requires 0 <= i < 5 => HistoryEntry("assistant", [a, b, c, d, f][i], Some(now)));
    assert QuietEntries([f], now) == s[4..];
    assert QuietEntries([d, f], now) == s[3..];
    assert QuietEntries([c, d, f], now) == s[2..];
    assert QuietEntries([b, c, d, f], now) == s[1..];
    assert QuietEntries([a, b, c, d, f], now) == s;
  }

  /**
   * Five iterations in a row whose replies call no tool: each assistant text
   * is recorded, then one reminder, and the count starts again from zero.
   */
  lemma FiveQuietTurnsRemind(turns: nat -> Turn, maxIter: int, done: nat, lastTool: Option<string>, now: string,
                             a: string, b: string, c: string, d: string, f: string)
    requires done + 5 <= maxIter
    requires turns(done).reply == Reply(a) && turns(done + 1).reply == Reply(b) && turns(done + 2).reply == Reply(c)
    requires turns(done + 3).reply == Reply(d) && turns(done + 4).reply == Reply(f)
    requires forall i :: done <= i < done + 5 ==> turns(i).results == []
    ensures var r := MonoFrom(turns, maxIter, done, 0, lastTool, now);
      var rest := MonoFrom(turns, maxIter, done + 5, 0, lastTool, now);
      r.entries == [HistoryEntry("assistant", a, Some(now)), HistoryEntry("assistant", b, Some(now)),
                    HistoryEntry("assistant", c, Some(now)), HistoryEntry("assistant", d, Some(now)),
                    HistoryEntry("assistant", f, Some(now)), HistoryEntry("system", Reminder, Some(now))] + rest.entries
      && r.result == rest.result && r.lastTool == rest.lastTool && r.iterations == rest.iterations
  {
    var texts := [a, b, c, d, f];
    assert QuietFrom(turns, done, texts) by {
      FiveQuietFrom(turns, done, a, b, c, d, f);
    }
    QuietTurns(turns, maxIter, done, 0, lastTool, now, texts, done + 5);
    FiveQuietEntries(a, b, c, d, f, now);
    var e := QuietEntries(texts, now);
    var reminder := HistoryEntry("system", Reminder, Some(now));
    assert e + [reminder] == [e[0], e[1], e[2], e[3], e[4], reminder];
  }

  /** Tool results are all recorded before the first breaking response is returned. */
  lemma FirstBreakReturned(turns: nat -> Turn, maxIter: int, done: nat, noTool: nat, lastTool: Option<string>,
                           now: string, j: nat)
    requires done < maxIter
    requires turns(done).reply.Reply?
    requires j < |turns(done).results| && turns(done).results[j].1.breakLoop
    requires forall i :: 0 <= i < j ==> !turns(done).results[i].1.breakLoop
    ensures var t := turns(done);
      MonoFrom(turns, maxIter, done, noTool, lastTool, now) ==
        MonoRun([HistoryEntry("assistant", t.reply.text, Some(now))] + ToolResultEntries(t.results, now),
                t.results[j].1.message, Some(t.results[|t.results| - 1].0.name), done + 1)
  {
    FirstBreakIsFirst(turns(done).results);
  }

  /** When no iteration fails or breaks, the fallback text is returned after every allowed iteration. */
  lemma {:induction false} NoBreakFallsBack(turns: nat -> Turn, maxIter: int, done: nat, noTool: nat,
                                            lastTool: Option<string>, now: string)
    requires forall i :: done <= i < maxIter ==>
      turns(i).reply.Reply? && forall k :: 0 <= k < |turns(i).results| ==> !turns(i).results[k].1.breakLoop
    ensures MonoFrom(turns, maxIter, done, noTool, lastTool, now).result == Fallback
    ensures done <= maxIter ==> MonoFrom(turns, maxIter, done, noTool, lastTool, now).iterations == maxIter
    decreases if done < maxIter then maxIter - done else 0
  {
    if done < maxIter {
      var t := turns(done);
      FirstBreakIsFirst(t.results);
      NoBreakFallsBack(turns, maxIter, done + 1, TurnNoTool(t, noTool), TurnLastTool(t, lastTool), now);
    }
  }

  /** The three LLM failure texts. */
  lemma LlmErrorMessages(reply: LlmReply)
    requires !reply.Reply?
    ensures StartsWith(LlmErrorMessage(reply), "[LLM ")
    ensures reply.ModelFailure? ==> StartsWith(LlmErrorMessage(reply), "[LLM Model Error: ")
    ensures reply.ConnectionFailure? ==> StartsWith(LlmErrorMessage(reply), "[LLM Connection Error: ")
  {
    var m := LlmErrorMessage(reply);
    match reply {
      case ModelFailure(e) =>
        assert m == "[LLM Model Error: " + (e + "]");
      case ConnectionFailure(e) =>
        assert m == "[LLM Connection Error: " + (e + "]");
      case OtherFailure(e) =>
        assert m == "[LLM " + ("Error: " + e + "]");
    }
  }

  /** An LLM failure ends the monologue at once with its error text, recorded as the assistant's message. */
  lemma LlmFailureEnds(turns: nat -> Turn, maxIter: int, done: nat, noTool: nat, lastTool: Option<string>, now: string)
    requires done < maxIter && !turns(done).reply.Reply?
    ensures var m := LlmErrorMessage(turns(done).reply);
      MonoFrom(turns, maxIter, done, noTool, lastTool, now) == MonoRun([HistoryEntry("assistant", m, Some(now))], m, lastTool, done + 1)
  {
  }

  // ===========================================================================
  // Where the turns come from

  /**
   * One iteration as the environment plays it: the LLM reply (or how the
   * call failed), the token estimates, and how the run of the `i`-th
   * extracted tool call ends.
   */
  datatype Play = Play(reply: LlmReply, promptTokens: int, completionTokens: int, outcomes: nat -> ToolOutcome)

  /** `_extract_tools`: the output parser over the registry's names and schemas. */
  function ExtractedTools(text: string, reg: Registry, env: Externals): seq<ToolCall> {
    OutputParser.ExtractedCalls(text, reg.toolNames, reg.schemas, env.parser)
  }

  /** The calls of one iteration run against the cache; nothing runs after an LLM failure. */
  function PlayRan(p: Play, cache: map<string, Response>, reg: Registry, cfg: AgentConfig, env: Externals): Ran {
    if p.reply.Reply? then RunCalls(cache, ExtractedTools(p.reply.text, reg, env), p.outcomes, reg, cfg, env)
    else Ran([], cache)
  }

  /** The `(tc, response)` pairs of `for tc, response, _cached in results`. */
  function Pairs(results: seq<(ToolCall, Response, bool)>): seq<(ToolCall, Response)> {
    seq(|results|, i requires 0 <= i < |results| => (results[i].0, results[i].1))
  }

  /** The turn a play gives on a given cache. */
  function TurnOf(p: Play, cache: map<string, Response>, reg: Registry, cfg: AgentConfig, env: Externals): Turn {
    Turn(p.reply, p.promptTokens, p.completionTokens, Pairs(PlayRan(p, cache, reg, cfg, env).results))
  }

  /** The session's tool cache before iteration `n` (0-based), starting from `cache`. */
  function CacheAt(plays: nat -> Play, cache: map<string, Response>, n: nat, reg: Registry, cfg: AgentConfig,
                   env: Externals): map<string, Response>
  {
    if n == 0 then cache else PlayRan(plays(n - 1), CacheAt(plays, cache, n - 1, reg, cfg, env), reg, cfg, env).cache
  }

  /** The turns of a monologue: each play runs its calls on the cache the earlier iterations left. */
  function TurnsOf(plays: nat -> Play, cache: map<string, Response>, reg: Registry, cfg: AgentConfig, env: Externals)
    : nat -> Turn
  {
    (n: nat) => TurnOf(plays(n), CacheAt(plays, cache, n, reg, cfg, env), reg, cfg, env)
  }

  /** Iteration `n` plays on the cache the iterations before it left, and leaves the cache of iteration `n + 1`. */
  lemma TurnsOfStep(plays: nat -> Play, cache: map<string, Response>, n: nat, reg: Registry, cfg: AgentConfig,
                    env: Externals)
    ensures TurnsOf(plays, cache, reg, cfg, env)(n) == TurnOf(plays(n), CacheAt(plays, cache, n, reg, cfg, env), reg, cfg, env)
    ensures CacheAt(plays, cache, n + 1, reg, cfg, env)
         == PlayRan(plays(n), CacheAt(plays, cache, n, reg, cfg, env), reg, cfg, env).cache
  {
  }

  /** Iteration `k` of a schedule plays on `caches(k)`, gives `turns(k)` and leaves `caches(k + 1)`. */
  ghost predicate Scheduled(turns: nat -> Turn, caches: nat -> map<string, Response>, plays: nat -> Play, k: nat,
                            reg: Registry, cfg: AgentConfig, env: Externals)
  {
    turns(k) == TurnOf(plays(k), caches(k), reg, cfg, env) && caches(k + 1) == PlayRan(plays(k), caches(k), reg, cfg, env).cache
  }

  /** The schedule of a monologue: its turns and the cache before each iteration, from `cache` on. */
  lemma Schedule(plays: nat -> Play, cache: map<string, Response>, reg: Registry, cfg: AgentConfig, env: Externals)
    returns (turns: nat -> Turn, caches: nat -> map<string, Response>)
    ensures caches(0) == cache
    ensures forall k: nat :: Scheduled(turns, caches, plays, k, reg, cfg, env)
  {
    turns := TurnsOf(plays, cache, reg, cfg, env);
    caches := (n: nat) => CacheAt(plays, cache, n, reg, cfg, env);
    forall k: nat
      ensures Scheduled(turns, caches, plays, k, reg, cfg, env)
    {
      TurnsOfStep(plays, cache, k, reg, cfg, env);
    }
  }

  /** The caches of a schedule from `cache` are `CacheAt`. */
  lemma {:induction false} ScheduledCaches(turns: nat -> Turn, caches: nat -> map<string, Response>, plays: nat -> Play,
                                           cache: map<string, Response>, n: nat, reg: Registry, cfg: AgentConfig,
                                           env: Externals)
    requires caches(0) == cache
    requires forall k: nat :: Scheduled(turns, caches, plays, k, reg, cfg, env)
    ensures caches(n) == CacheAt(plays, cache, n, reg, cfg, env)
  {
    if n > 0 {
      ScheduledCaches(turns, caches, plays, cache, n - 1, reg, cfg, env);
      ghost var c := caches(n - 1);
      assert Scheduled(turns, caches, plays, n - 1, reg, cfg, env);
      assert caches(n) == PlayRan(plays(n - 1), c, reg, cfg, env).cache;
    }
  }

  /** The turns of a schedule from `cache` are `TurnsOf`. */
  lemma ScheduledAt(turns: nat -> Turn, caches: nat -> map<string, Response>, plays: nat -> Play,
                    cache: map<string, Response>, n: nat, reg: Registry, cfg: AgentConfig, env: Externals)
    requires caches(0) == cache
    requires forall k: nat :: Scheduled(turns, caches, plays, k, reg, cfg, env)
    ensures caches(n) == CacheAt(plays, cache, n, reg, cfg, env)
    ensures turns(n) == TurnsOf(plays, cache, reg, cfg, env)(n)
  {
    ScheduledCaches(turns, caches, plays, cache, n, reg, cfg, env);
    assert Scheduled(turns, caches, plays, n, reg, cfg, env);
    TurnsOfStep(plays, cache, n, reg, cfg, env);
  }

  /** The run and the log of a schedule from `cache` are those of `TurnsOf`. */
  lemma ScheduledRuns(turns: nat -> Turn, caches: nat -> map<string, Response>, plays: nat -> Play,
                      cache: map<string, Response>, maxIter: int, lastTool: Option<string>, now: string,
                      reg: Registry, cfg: AgentConfig, env: Externals)
    requires caches(0) == cache
    requires forall k: nat :: Scheduled(turns, caches, plays, k, reg, cfg, env)
    ensures MonoFrom(turns, maxIter, 0, 0, lastTool, now) == MonoFrom(TurnsOf(plays, cache, reg, cfg, env), maxIter, 0, 0, lastTool, now)
    ensures MonoLog(turns, maxIter, 0, 0, now) == MonoLog(TurnsOf(plays, cache, reg, cfg, env), maxIter, 0, 0, now)
    ensures forall n: nat :: caches(n) == CacheAt(plays, cache, n, reg, cfg, env)
  {
    forall n: nat
      ensures caches(n) == CacheAt(plays, cache, n, reg, cfg, env) && turns(n) == TurnsOf(plays, cache, reg, cfg, env)(n)
    {
      ScheduledAt(turns, caches, plays, cache, n, reg, cfg, env);
    }
    MonoUsesOnlyAllowedTurns(turns, TurnsOf(plays, cache, reg, cfg, env), maxIter, 0, 0, lastTool, now);
    MonoLogUsesOnlyAllowedTurns(turns, TurnsOf(plays, cache, reg, cfg, env), maxIter, 0, 0, now);
  }

  /**
   * A turn's results answer exactly the calls the parser extracted from the
   * reply, in order; there are none after an LLM failure or when nothing was
   * extracted, and then the cache is left as it was.
   */
  lemma TurnAnswersExtractedCalls(p: Play, cache: map<string, Response>, reg: Registry, cfg: AgentConfig, env: Externals)
    ensures var t := TurnOf(p, cache, reg, cfg, env);
      (!p.reply.Reply? || ExtractedTools(p.reply.text, reg, env) == []) ==>
        t.results == [] && PlayRan(p, cache, reg, cfg, env).cache == cache
    ensures var t := TurnOf(p, cache, reg, cfg, env);
      p.reply.Reply? ==>
        var calls := ExtractedTools(p.reply.text, reg, env);
        |t.results| == |calls| && forall i :: 0 <= i < |calls| ==> t.results[i].0 == calls[i]
  {
    if p.reply.Reply? {
      RunCallsInOrder(cache, ExtractedTools(p.reply.text, reg, env), p.outcomes, reg, cfg, env);
    }
  }

  // ===========================================================================
  // What the loop persists

  /** One persistence call of the agent: `append_message`, `_persist_tool_call` or `_persist_token_counts`. */
  datatype Write = MessageWrite(role: string, content: string, title: Option<string>)
                 | ToolCallWrite(call: ToolCall, response: Response)
                 | TokenWrite(prompt: int, completion: int)

  /** The title `append_message` pushes with `set_title` after saving: a user message's non-empty session title. */
  function Pushed(role: string, title: Option<string>): Option<string> {
    if role == "user" && HasTitle(title) then title else None
  }

  /**
   * The tables after one write for session `id` at time `now`.  An insert
   * for a session that is not in the table raises, and the agent swallows
   * the error, so nothing changes.
   */
  ghost predicate Wrote(before: SessionStore.Tables, after: SessionStore.Tables, w: Write, id: string, maxSessions: int,
                        now: string)
  {
    if id !in before.sessions then after == before
    else match w
      case MessageWrite(role, content, title) =>
        exists saved :: SessionStore.MessageSaved(before, saved, id, role, content, now, maxSessions)
                        && after == (if title.Some? then SessionStore.TitleSet(saved, id, title.value, now) else saved)
      case ToolCallWrite(call, response) =>
        SessionStore.ToolCallSaved(before, after, id, call.name, call.args, Some(response.message), now, maxSessions)
      case TokenWrite(prompt, completion) =>
        after == SessionStore.TokensAdded(before, id, prompt, completion, now)
  }

  /** The tables after the writes `ws`, one after another. */
  ghost predicate WroteAll(before: SessionStore.Tables, after: SessionStore.Tables, ws: seq<Write>, id: string,
                           maxSessions: int, now: string)
    decreases |ws|
  {
    if ws == [] then after == before
    else exists mid :: WroteAll(before, mid, Init(ws), id, maxSessions, now) && Wrote(mid, after, Last(ws), id, maxSessions, now)
  }

  function Init(ws: seq<Write>): seq<Write>
    requires ws != []
  {
    ws[..|ws| - 1]
  }

  function Last(ws: seq<Write>): Write
    requires ws != []
  {
    ws[|ws| - 1]
  }

  /** With `session.auto_save` the writes happen; without it the store is left alone. */
  ghost predicate Logged(before: SessionStore.Tables, after: SessionStore.Tables, autoSave: bool, ws: seq<Write>,
                         id: string, maxSessions: int, now: string)
  {
    if autoSave then WroteAll(before, after, ws, id, maxSessions, now) else after == before
  }

  lemma WroteAllSnoc(a: SessionStore.Tables, b: SessionStore.Tables, c: SessionStore.Tables, ws: seq<Write>, w: Write,
                     id: string, maxSessions: int, now: string)
    requires WroteAll(a, b, ws, id, maxSessions, now) && Wrote(b, c, w, id, maxSessions, now)
    ensures WroteAll(a, c, ws + [w], id, maxSessions, now)
  {
    assert Init(ws + [w]) == ws && Last(ws + [w]) == w;
  }

  lemma {:induction false} WroteAllThen(a: SessionStore.Tables, b: SessionStore.Tables, c: SessionStore.Tables,
                                        ws1: seq<Write>, ws2: seq<Write>, id: string, maxSessions: int, now: string)
    requires WroteAll(a, b, ws1, id, maxSessions, now) && WroteAll(b, c, ws2, id, maxSessions, now)
    ensures WroteAll(a, c, ws1 + ws2, id, maxSessions, now)
    decreases |ws2|
  {
    if ws2 == [] {
      assert ws1 + ws2 == ws1;
    } else {
      var init := ws2[..|ws2| - 1];
      var mid :| WroteAll(b, mid, Init(ws2), id, maxSessions, now) && Wrote(mid, c, Last(ws2), id, maxSessions, now);
      WroteAllThen(a, b, mid, ws1, init, id, maxSessions, now);
      WroteAllSnoc(a, mid, c, ws1 + init, ws2[|ws2| - 1], id, maxSessions, now);
      assert ws1 + init + [ws2[|ws2| - 1]] == ws1 + ws2;
    }
  }

  /** Writes logged one after another are logged together. */
  lemma LoggedThen(a: SessionStore.Tables, b: SessionStore.Tables, c: SessionStore.Tables, autoSave: bool,
                   ws1: seq<Write>, ws2: seq<Write>, id: string, maxSessions: int, now: string)
    requires Logged(a, b, autoSave, ws1, id, maxSessions, now) && Logged(b, c, autoSave, ws2, id, maxSessions, now)
    ensures Logged(a, c, autoSave, ws1 + ws2, id, maxSessions, now)
  {
    if autoSave {
      WroteAllThen(a, b, c, ws1, ws2, id, maxSessions, now);
    }
  }

  lemma LoggedOne(a: SessionStore.Tables, b: SessionStore.Tables, autoSave: bool, w: Write, id: string,
                  maxSessions: int, now: string)
    requires if autoSave then Wrote(a, b, w, id, maxSessions, now) else b == a
    ensures Logged(a, b, autoSave, [w], id, maxSessions, now)
  {
    if autoSave {
      assert Init([w]) == [] && Last([w]) == w;
      assert WroteAll(a, a, Init([w]), id, maxSessions, now);
    }
  }

  /** One write never adds a session: save_message and save_tool_call only touch and prune. */
  lemma WroteCreatesNoSession(a: SessionStore.Tables, b: SessionStore.Tables, w: Write, id: string, maxSessions: int,
                              now: string)
    requires Wrote(a, b, w, id, maxSessions, now)
    ensures b.sessions.Keys <= a.sessions.Keys
  {
    if id in a.sessions && w.MessageWrite? {
      var saved :| SessionStore.MessageSaved(a, saved, id, w.role, w.content, now, maxSessions)
                   && b == (if w.title.Some? then SessionStore.TitleSet(saved, id, w.title.value, now) else saved);
      assert saved.sessions.Keys <= a.sessions.Keys;
    }
  }

  /**
   * The agent's writes never create a session: rows for a session missing
   * from the table are refused, and the table only shrinks by pruning.
   */
  lemma {:induction false} WritesCreateNoSession(a: SessionStore.Tables, b: SessionStore.Tables, ws: seq<Write>,
                                                 id: string, maxSessions: int, now: string)
    requires WroteAll(a, b, ws, id, maxSessions, now)
    ensures b.sessions.Keys <= a.sessions.Keys
    decreases |ws|
  {
    if ws != [] {
      var mid :| WroteAll(a, mid, Init(ws), id, maxSessions, now) && Wrote(mid, b, Last(ws), id, maxSessions, now);
      WritesCreateNoSession(a, mid, ws[..|ws| - 1], id, maxSessions, now);
      WroteCreatesNoSession(mid, b, ws[|ws| - 1], id, maxSessions, now);
    }
  }

  /** When the agent's session is not in the table, none of its writes changes the store. */
  lemma {:induction false} MissingSessionUntouched(a: SessionStore.Tables, b: SessionStore.Tables, ws: seq<Write>,
                                                   id: string, maxSessions: int, now: string)
    requires id !in a.sessions && WroteAll(a, b, ws, id, maxSessions, now)
    ensures b == a
    decreases |ws|
  {
    if ws != [] {
      var mid :| WroteAll(a, mid, Init(ws), id, maxSessions, now) && Wrote(mid, b, Last(ws), id, maxSessions, now);
      MissingSessionUntouched(a, mid, ws[..|ws| - 1], id, maxSessions, now);
    }
  }

  /** The tool-call entry `_persist_tool_call` appends to `context.data["tool_calls"]`. */
  function StoredCall(result: (ToolCall, Response), now: string): SessionStore.StoredToolCall {
    SessionStore.StoredToolCall(result.0.name, result.0.args, Some(result.1.message), now)
  }

  function ResultCalls(results: seq<(ToolCall, Response)>, now: string): (r: seq<SessionStore.StoredToolCall>)
    ensures |r| == |results|
  {
    if results == [] then [] else ResultCalls(results[..|results| - 1], now) + [StoredCall(results[|results| - 1], now)]
  }

  /** The writes recording one result: the tool call, then its history message. */
  function ResultWrite(result: (ToolCall, Response)): seq<Write> {
    [ToolCallWrite(result.0, result.1), MessageWrite("system", ToolResultMessage(result.0, result.1), None)]
  }

  function ResultWrites(results: seq<(ToolCall, Response)>): seq<Write> {
    if results == [] then [] else ResultWrites(results[..|results| - 1]) + ResultWrite(results[|results| - 1])
  }

  /** The tool calls one iteration records in the context. */
  function TurnCalls(t: Turn, now: string): seq<SessionStore.StoredToolCall> {
    if t.reply.Reply? then ResultCalls(t.results, now) else []
  }

  /** The writes of one iteration: token counts and the reply, then the results or the reminder. */
  function TurnWrites(t: Turn, noTool: nat): seq<Write> {
    if !t.reply.Reply? then [MessageWrite("assistant", LlmErrorMessage(t.reply), None)]
    else
      [TokenWrite(t.promptTokens, t.completionTokens), MessageWrite("assistant", t.reply.text, None)]
      + (if t.results != [] then ResultWrites(t.results)
         else if noTool + 1 >= NoToolLimit then [MessageWrite("system", Reminder, None)]
         else [])
  }

  /** What a reply's extracted calls add to the history: their results, or else the reminder at the limit. */
  function CallEntries(results: seq<(ToolCall, Response)>, noTool: nat, now: string): seq<HistoryEntry> {
    if results != [] then ToolResultEntries(results, now)
    else if noTool + 1 >= NoToolLimit then [HistoryEntry("system", Reminder, Some(now))]
    else []
  }

  /** The writes of `CallEntries`. */
  function CallWrites(results: seq<(ToolCall, Response)>, noTool: nat): seq<Write> {
    if results != [] then ResultWrites(results)
    else if noTool + 1 >= NoToolLimit then [MessageWrite("system", Reminder, None)]
    else []
  }

  /** After a reply, an iteration is the reply's own entry and writes, then what its calls add. */
  lemma ReplyTurnSplits(t: Turn, noTool: nat, lastTool: Option<string>, now: string)
    requires t.reply.Reply?
    ensures TurnEntries(t, noTool, now) == [HistoryEntry("assistant", t.reply.text, Some(now))] + CallEntries(t.results, noTool, now)
    ensures TurnWrites(t, noTool)
         == [TokenWrite(t.promptTokens, t.completionTokens), MessageWrite("assistant", t.reply.text, None)]
            + CallWrites(t.results, noTool)
    ensures TurnStop(t) == (if t.results == [] then None else FirstBreak(t.results))
    ensures TurnNoTool(t, noTool) == (if t.results != [] || noTool + 1 >= NoToolLimit then 0 else noTool + 1)
    ensures TurnLastTool(t, lastTool) == LastToolOf(t.results, lastTool)
    ensures TurnCalls(t, now) == ResultCalls(t.results, now)
  {
  }

  /** The tool calls recorded in the context and the writes sent to the store. */
  datatype Log = Log(calls: seq<SessionStore.StoredToolCall>, writes: seq<Write>)

  function LogThen(a: Log, b: Log): Log {
    Log(a.calls + b.calls, a.writes + b.writes)
  }

  /** Chaining logs is associative. */
  lemma LogAssoc(a: Log, b: Log, c: Log)
    ensures LogThen(LogThen(a, b), c) == LogThen(a, LogThen(b, c))
  {
    assert a.calls + b.calls + c.calls == a.calls + (b.calls + c.calls);
    assert a.writes + b.writes + c.writes == a.writes + (b.writes + c.writes);
  }

  /** What the loop from iteration `done` records, following `MonoFrom`. */
  function MonoLog(turns: nat -> Turn, maxIter: int, done: nat, noTool: nat, now: string): Log
    decreases if done < maxIter then maxIter - done else 0
  {
    if done >= maxIter then Log([], [])
    else
      var t := turns(done);
      var here := Log(TurnCalls(t, now), TurnWrites(t, noTool));
      if TurnStop(t).Some? then here
      else LogThen(here, MonoLog(turns, maxIter, done + 1, TurnNoTool(t, noTool), now))
  }

  /** Like the run, the log depends only on the turns the loop reaches. */
  lemma {:induction false} MonoLogUsesOnlyAllowedTurns(t1: nat -> Turn, t2: nat -> Turn, maxIter: int, done: nat,
                                                       noTool: nat, now: string)
    requires forall i :: 0 <= i < maxIter ==> t1(i) == t2(i)
    ensures MonoLog(t1, maxIter, done, noTool, now) == MonoLog(t2, maxIter, done, noTool, now)
    decreases if done < maxIter then maxIter - done else 0
  {
    if done < maxIter {
      var t := t1(done);
      if TurnStop(t).None? {
        MonoLogUsesOnlyAllowedTurns(t1, t2, maxIter, done + 1, TurnNoTool(t, noTool), now);
      }
    }
  }

  /**
   * `runs` and `logs` give what the loop does and records from any iteration
   * on, counting tool-less replies from any number, after any last tool.
   */
  ghost predicate Tabulates(runs: (nat, nat, Option<string>) -> MonoRun, logs: (nat, nat) -> Log,
                            turns: nat -> Turn, maxIter: int, now: string)
  {
    && (forall done: nat, noTool: nat, lastTool: Option<string> {:trigger MonoFrom(turns, maxIter, done, noTool, lastTool, now)} ::
          runs(done, noTool, lastTool) == MonoFrom(turns, maxIter, done, noTool, lastTool, now))
    && (forall done: nat, noTool: nat {:trigger MonoLog(turns, maxIter, done, noTool, now)} ::
          logs(done, noTool) == MonoLog(turns, maxIter, done, noTool, now))
  }

  /** The table of `MonoFrom` and `MonoLog` over a schedule, as values the loop can carry without unfolding them. */
  lemma Tabulate(turns: nat -> Turn, maxIter: int, now: string)
    returns (runs: (nat, nat, Option<string>) -> MonoRun, logs: (nat, nat) -> Log)
    ensures Tabulates(runs, logs, turns, maxIter, now)
  {
    runs := (done: nat, noTool: nat, lastTool: Option<string>) => MonoFrom(turns, maxIter, done, noTool, lastTool, now);
    logs := (done: nat, noTool: nat) => MonoLog(turns, maxIter, done, noTool, now);
  }

  /** `run` and `log` are what the loop does and records from iteration `done` on. */
  ghost predicate RunsFrom(runs: (nat, nat, Option<string>) -> MonoRun, logs: (nat, nat) -> Log,
                           done: nat, noTool: nat, lastTool: Option<string>, run: MonoRun, log: Log)
  {
    run == runs(done, noTool, lastTool) && log == logs(done, noTool)
  }

  /**
   * Where the loop of `monologue` stands after `iteration` iterations of the
   * whole run `total` (with log `log`) from the history `h0`: while it goes on,
   * `history` followed by the rest of the run `rest` is the whole run's history,
   * and `done` followed by the rest of the log is the whole log; once it has
   * stopped, the history and the log are complete.
   */
  ghost predicate Progress(runs: (nat, nat, Option<string>) -> MonoRun, logs: (nat, nat) -> Log,
                           iteration: nat, noTool: nat, lastTool: Option<string>, stop: Option<string>, history: seq<HistoryEntry>,
                           rest: MonoRun, restLog: Log, done: Log, h0: seq<HistoryEntry>, total: MonoRun, log: Log)
  {
    match stop
    case None =>
      && RunsFrom(runs, logs, iteration, noTool, lastTool, rest, restLog)
      && history + rest.entries == h0 + total.entries
      && rest.result == total.result && rest.lastTool == total.lastTool && rest.iterations == total.iterations
      && LogThen(done, restLog) == log
    case Some(answer) =>
      && iteration > 0
      && history == h0 + total.entries && answer == total.result && lastTool == total.lastTool
      && total.iterations == iteration && done == log
  }

  /** The role and text of every message write, in order. */
  function MessagesWritten(ws: seq<Write>): seq<(string, string)> {
    if ws == [] then []
    else MessagesWritten(ws[..|ws| - 1])
         + (if ws[|ws| - 1].MessageWrite? then [(ws[|ws| - 1].role, ws[|ws| - 1].content)] else [])
  }

  /** The role and text of every history entry, in order. */
  function EntryTexts(es: seq<HistoryEntry>): seq<(string, string)> {
    if es == [] then [] else EntryTexts(es[..|es| - 1]) + [(es[|es| - 1].role, es[|es| - 1].content)]
  }

  lemma MessagesWrittenOne(w: Write)
    ensures MessagesWritten([w]) == if w.MessageWrite? then [(w.role, w.content)] else []
  {
    assert [w][..0] == [];
  }

  lemma {:induction false} MessagesWrittenAppend(a: seq<Write>, b: seq<Write>)
    ensures MessagesWritten(a + b) == MessagesWritten(a) + MessagesWritten(b)
    decreases |b|
  {
    if b == [] {
      assert a + b == a;
    } else {
      MessagesWrittenAppend(a, b[..|b| - 1]);
      assert (a + b)[..|a + b| - 1] == a + b[..|b| - 1];
    }
  }

  lemma {:induction false} EntryTextsAppend(a: seq<HistoryEntry>, b: seq<HistoryEntry>)
    ensures EntryTexts(a + b) == EntryTexts(a) + EntryTexts(b)
    decreases |b|
  {
    if b == [] {
      assert a + b == a;
    } else {
      EntryTextsAppend(a, b[..|b| - 1]);
      assert (a + b)[..|a + b| - 1] == a + b[..|b| - 1];
    }
  }

  /** Each result's history entry is the message written for it. */
  lemma {:induction false} ResultWritesMatchEntries(results: seq<(ToolCall, Response)>, now: string)
    ensures MessagesWritten(ResultWrites(results)) == EntryTexts(ToolResultEntries(results, now))
    decreases |results|
  {
    if results != [] {
      var init := results[..|results| - 1];
      var last := results[|results| - 1];
      ResultWritesMatchEntries(init, now);
      MessagesWrittenAppend(ResultWrites(init), ResultWrite(last));
      assert MessagesWritten(ResultWrite(last)) == [("system", ToolResultMessage(last.0, last.1))] by {
        MessagesWrittenOne(ToolCallWrite(last.0, last.1));
        MessagesWrittenOne(MessageWrite("system", ToolResultMessage(last.0, last.1), None));
        MessagesWrittenAppend([ToolCallWrite(last.0, last.1)], [MessageWrite("system", ToolResultMessage(last.0, last.1), None)]);
      }
      assert ToolResultEntries(results, now)[..|results| - 1] == ToolResultEntries(init, now);
    }
  }

  lemma TurnWritesMatchEntries(t: Turn, noTool: nat, now: string)
    ensures MessagesWritten(TurnWrites(t, noTool)) == EntryTexts(TurnEntries(t, noTool, now))
  {
    var reply := HistoryEntry("assistant", if t.reply.Reply? then t.reply.text else LlmErrorMessage(t.reply), Some(now));
    assert EntryTexts([reply]) == [(reply.role, reply.content)];
    if t.reply.Reply? {
      var head := [TokenWrite(t.promptTokens, t.completionTokens), MessageWrite("assistant", t.reply.text, None)];
      assert MessagesWritten(head) == [("assistant", t.reply.text)] by {
        MessagesWrittenOne(TokenWrite(t.promptTokens, t.completionTokens));
        MessagesWrittenOne(MessageWrite("assistant", t.reply.text, None));
        MessagesWrittenAppend([TokenWrite(t.promptTokens, t.completionTokens)], [MessageWrite("assistant", t.reply.text, None)]);
      }
      var tail := if t.results != [] then ResultWrites(t.results)
                  else if noTool + 1 >= NoToolLimit then [MessageWrite("system", Reminder, None)] else [];
      var rest := if t.results != [] then ToolResultEntries(t.results, now)
                  else if noTool + 1 >= NoToolLimit then [HistoryEntry("system", Reminder, Some(now))] else [];
      MessagesWrittenAppend(head, tail);
      EntryTextsAppend([reply], rest);
      if t.results != [] {
        ResultWritesMatchEntries(t.results, now);
      } else if noTool + 1 >= NoToolLimit {
        assert MessagesWritten(tail) == [("system", Reminder)] by {
          assert tail[..0] == [];
        }
        assert EntryTexts(rest) == [("system", Reminder)] by {
          assert rest[..0] == [];
        }
      }
    } else {
      assert TurnWrites(t, noTool)[..0] == [];
    }
  }

  /** Every history entry the loop adds is also the message it writes to the store, in the same order. */
  lemma {:induction false} MonoLogMatchesEntries(turns: nat -> Turn, maxIter: int, done: nat, noTool: nat,
                                                 lastTool: Option<string>, now: string)
    ensures MessagesWritten(MonoLog(turns, maxIter, done, noTool, now).writes)
         == EntryTexts(MonoFrom(turns, maxIter, done, noTool, lastTool, now).entries)
    decreases if done < maxIter then maxIter - done else 0
  {
    if done < maxIter {
      var t := turns(done);
      TurnWritesMatchEntries(t, noTool, now);
      if TurnStop(t).None? {
        var nt := TurnNoTool(t, noTool);
        var lt := TurnLastTool(t, lastTool);
        MonoLogMatchesEntries(turns, maxIter, done + 1, nt, lt, now);
        MessagesWrittenAppend(TurnWrites(t, noTool), MonoLog(turns, maxIter, done + 1, nt, now).writes);
        EntryTextsAppend(TurnEntries(t, noTool, now), MonoFrom(turns, maxIter, done + 1, nt, lt, now).entries);
      }
    }
  }

  // ===========================================================================
  // The shared context data

  /** The `context.data` dict and the context's store, as the agent uses them. */
  class ContextData {
    const id: string
    const store: SessionStore.Store?
    var createdAt: string                                         // data["session_created_at"]
    var updatedAt: string                                         // data["session_updated_at"]
    var title: Option<string>                                     // data["session_title"]
    var toolCalls: seq<SessionStore.StoredToolCall>               // data["tool_calls"]
    var toolCache: map<string, Response>                          // data["tool_cache"]
    var sessionHistory: Option<seq<SessionStore.StoredMessage>>   // data["session_history"]
    var sessionToolCalls: Option<seq<SessionStore.StoredToolCall>> // data["session_tool_calls"]

    predicate Valid()
      reads this, store
    {
      store != null ==> store.Valid()
    }

    /** The session's start, its title and what was restored from the store, as the loop of `monologue` keeps them. */
    ghost predicate Holds(createdAt: string, title: Option<string>, sessionHistory: Option<seq<SessionStore.StoredMessage>>,
                          sessionToolCalls: Option<seq<SessionStore.StoredToolCall>>)
      reads this
    {
      this.createdAt == createdAt && this.title == title
      && this.sessionHistory == sessionHistory && this.sessionToolCalls == sessionToolCalls
    }

    /** The data a new `AgentContext` starts with, before any restore. */
    constructor(id: string, store: SessionStore.Store?, now: string)
      requires store != null ==> store.Valid()
      ensures Valid()
      ensures this.id == id && this.store == store
      ensures createdAt == now && updatedAt == now
      ensures title.None? && toolCalls == [] && toolCache == map[]
      ensures sessionHistory.None? && sessionToolCalls.None?
    {
      this.id := id;
      this.store := store;
      createdAt := now;
      updatedAt := now;
      title := None;
      toolCalls := [];
      toolCache := map[];
      sessionHistory := None;
      sessionToolCalls := None;
    }
  }

  // ===========================================================================
  // The agent

  class Agent {
    const agentId: int
    const context: ContextData
    const config: AgentConfig
    const registry: Registry
    const env: Externals
    var history: seq<HistoryEntry>
    var lastToolName: Option<string>   // self.data["last_tool_name"]

    constructor(agentId: int, context: ContextData, config: AgentConfig, registry: Registry, env: Externals)
      ensures this.agentId == agentId && this.context == context && this.config == config
      ensures this.registry == registry && this.env == env
      ensures history == [] && lastToolName.None?
    {
      this.agentId := agentId;
      this.context := context;
      this.config := config;
      this.registry := registry;
      this.env := env;
      history := [];
      lastToolName := None;
    }

    /** The store's tables, when the context has a store. */
    ghost function Tables(): SessionStore.Tables
      reads context.store
    {
      if context.store == null then SessionStore.Tables(map[], [], []) else context.store.Snapshot()
    }

    /** The store went through the writes `ws` for this session, as `Logged` says. */
    twostate predicate Persisted(ws: seq<Write>, now: string)
      reads context.store
    {
      context.store != null ==>
        Logged(old(Tables()), Tables(), config.autoSave, ws, context.id, context.store.maxSessions, now)
    }

    /**
     * `append_message`: one history entry with the mapped role, the context
     * touched and possibly titled, and, with auto-save, the message saved and,
     * for a user message, the context's title pushed to the store.
     */
    method AppendMessage(role: string, content: string, now: string)
      requires context.Valid()
      modifies this, context, context.store
      ensures context.Valid()
      ensures history == old(history) + [HistoryEntry(MapRole(role), content, Some(now))]
      ensures lastToolName == old(lastToolName)
      ensures context.updatedAt == now
      ensures context.title == TitleAfter(old(context.title), role, content)
      ensures context.createdAt == old(context.createdAt) && context.toolCalls == old(context.toolCalls)
      ensures context.toolCache == old(context.toolCache)
      ensures context.sessionHistory == old(context.sessionHistory) && context.sessionToolCalls == old(context.sessionToolCalls)
      ensures Persisted([MessageWrite(MapRole(role), content, Pushed(MapRole(role), context.title))], now)
    {
      var ollamaRole := MapRole(role);
      history := history + [HistoryEntry(ollamaRole, content, Some(now))];
      context.updatedAt := now;
      if ollamaRole == "user" && !HasTitle(context.title) {
        var title := DeriveSessionTitle(content);
        if title != [] {
          context.title := Some(title);
        }
      }
      SaveToStore(ollamaRole, content, now);
    }

    /**
     * The store half of `append_message`: with auto-save, `save_message`
     * and, when it did not raise, `set_title` with a user message's title.
     */
    method SaveToStore(role: string, content: string, now: string)
      requires context.Valid()
      modifies context.store
      ensures context.Valid()
      ensures Persisted([MessageWrite(role, content, Pushed(role, context.title))], now)
    {
      var store := context.store;
      if store != null {
        ghost var before := store.Snapshot();
        ghost var w := MessageWrite(role, content, Pushed(role, context.title));
        if config.autoSave {
          var id := context.id;
          var raised := store.SaveMessage(id, role, content, Some(now), now);
          ghost var saved := store.Snapshot();
          if !raised && role == "user" && HasTitle(context.title) {
            store.SetTitle(id, context.title.value, now);
          }
          assert Wrote(before, store.Snapshot(), w, id, store.maxSessions, now) by {
            if !raised {
              assert SessionStore.MessageSaved(before, saved, id, role, content, now, store.maxSessions);
            }
          }
        }
        LoggedOne(before, store.Snapshot(), config.autoSave, w, context.id, store.maxSessions, now);
      }
    }

    /** `_persist_tool_call`: the call is recorded in the context and, with auto-save, in the store. */
    method PersistToolCall(call: ToolCall, response: Response, now: string)
      requires context.Valid()
      modifies context, context.store
      ensures context.Valid()
      ensures context.toolCalls == old(context.toolCalls) + [StoredCall((call, response), now)]
      ensures context.createdAt == old(context.createdAt) && context.updatedAt == old(context.updatedAt)
      ensures context.title == old(context.title) && context.toolCache == old(context.toolCache)
      ensures context.sessionHistory == old(context.sessionHistory) && context.sessionToolCalls == old(context.sessionToolCalls)
      ensures Persisted([ToolCallWrite(call, response)], now)
    {
      context.toolCalls := context.toolCalls + [SessionStore.StoredToolCall(call.name, call.args, Some(response.message), now)];
      var store := context.store;
      if store != null {
        ghost var before := store.Snapshot();
        if config.autoSave {
          var _ := store.SaveToolCall(context.id, call.name, call.args, Some(response.message), Some(now), now);
        }
        LoggedOne(before, store.Snapshot(), config.autoSave, ToolCallWrite(call, response), context.id, store.maxSessions, now);
      }
    }

    /** `_persist_token_counts` with the estimates given. */
    method PersistTokenCounts(promptTokens: int, completionTokens: int, now: string)
      requires context.Valid()
      modifies context.store
      ensures context.Valid()
      ensures Persisted([TokenWrite(promptTokens, completionTokens)], now)
    {
      var store := context.store;
      if store != null {
        ghost var before := store.Snapshot();
        if config.autoSave {
          store.IncrementTokenCounts(context.id, promptTokens, completionTokens, now);
        }
        LoggedOne(before, store.Snapshot(), config.autoSave, TokenWrite(promptTokens, completionTokens), context.id,
                  store.maxSessions, now);
      }
    }

    /** `_execute_tool_with_instance` for a known tool whose run ends as `outcome`. */
    method ExecuteToolWithInstance(call: ToolCall, tool: ToolInfo, outcome: ToolOutcome)
      returns (response: Response, cached: bool)
      modifies context
      ensures CacheStep(response, cached, context.toolCache) ==
        ExecutedWithCache(old(context.toolCache), call, tool, outcome, config, env)
      ensures context.createdAt == old(context.createdAt) && context.updatedAt == old(context.updatedAt)
      ensures context.title == old(context.title) && context.toolCalls == old(context.toolCalls)
      ensures context.sessionHistory == old(context.sessionHistory) && context.sessionToolCalls == old(context.sessionToolCalls)
    {
      var key := CacheKey(call, env);
      var canCache := config.cacheEnabled && tool.shouldCache(call.args);
      if canCache && key in context.toolCache {
        return context.toolCache[key], true;
      }
      var timeout := GetToolTimeout(call.name, config, tool);
      match outcome {
        case Completed(r) => response := r;
        case TimedOut =>
          response := Response("[Tool '" + call.name + "' timed out after " + env.formatSeconds(timeout) + "s]", false);
        case Raised(e) =>
          response := Response("[Tool '" + call.name + "' error: " + e + "]", false);
      }
      if canCache {
        context.toolCache := context.toolCache[key := response];
      }
      cached := false;
    }

    /**
     * `_execute_tool_calls`: no results for no calls; otherwise one result per
     * call in input order.  `parallel` tells whether the source would take
     * the `asyncio.gather` path, which is modelled in the same order.
     */
    method ExecuteToolCalls(calls: seq<ToolCall>, outcomes: nat -> ToolOutcome)
      returns (results: seq<(ToolCall, Response, bool)>, parallel: bool)
      modifies context
      ensures calls == [] ==> results == [] && !parallel && context.toolCache == old(context.toolCache)
      ensures Ran(results, context.toolCache) == RunCalls(old(context.toolCache), calls, outcomes, registry, config, env)
      ensures parallel <==> |calls| > 1 && AllParallelSafe(calls, registry)
      ensures context.createdAt == old(context.createdAt) && context.updatedAt == old(context.updatedAt)
      ensures context.title == old(context.title) && context.toolCalls == old(context.toolCalls)
      ensures context.sessionHistory == old(context.sessionHistory) && context.sessionToolCalls == old(context.sessionToolCalls)
    {
      if calls == [] {
        return [], false;
      }
      var safe := AllSafe(calls);
      parallel := |calls| != 1 && safe;
      ghost var cache0 := context.toolCache;
      results := [];
      var i := 0;
      while i < |calls|
        invariant 0 <= i <= |calls|
        invariant Ran(results, context.toolCache) == RunCalls(cache0, calls[..i], outcomes, registry, config, env)
        invariant context.createdAt == old(context.createdAt) && context.updatedAt == old(context.updatedAt)
        invariant context.title == old(context.title) && context.toolCalls == old(context.toolCalls)
        invariant context.sessionHistory == old(context.sessionHistory)
        invariant context.sessionToolCalls == old(context.sessionToolCalls)
      {
        assert calls[..i + 1][..i] == calls[..i];
        var call := calls[i];
        var response, cached;
        if call.name !in registry.tools {
          response, cached := Response(UnknownToolMessage(call.name, registry.toolNames), false), false;
        } else {
          response, cached := ExecuteToolWithInstance(call, registry.tools[call.name], outcomes(i));
        }
        results := results + [(call, response, cached)];
        i := i + 1;
      }
      assert calls[..i] == calls;
    }

    /** The `all(...)` test of `_execute_tool_calls`. */
    method AllSafe(calls: seq<ToolCall>) returns (safe: bool)
      ensures safe <==> AllParallelSafe(calls, registry)
    {
      var i := 0;
      while i < |calls|
        invariant 0 <= i <= |calls|
        invariant AllParallelSafe(calls[..i], registry)
      {
        var name := calls[i].name;
        if name !in registry.tools || !registry.tools[name].parallelSafe(calls[i].args) {
          return false;
        }
        assert calls[..i + 1] == calls[..i] + [calls[i]];
        i := i + 1;
      }
      assert calls[..i] == calls;
      return true;
    }

    /** The loop over one iteration's results: each is persisted and recorded; the first breaking one is kept. */
    method RecordToolResults(results: seq<(ToolCall, Response)>, now: string) returns (final: Option<string>)
      requires context.Valid()
      modifies this, context, context.store
      ensures context.Valid()
      ensures history == old(history) + ToolResultEntries(results, now)
      ensures final == FirstBreak(results)
      ensures lastToolName == LastToolOf(results, old(lastToolName))
      ensures context.toolCalls == old(context.toolCalls) + ResultCalls(results, now)
      ensures context.updatedAt == if results == [] then old(context.updatedAt) else now
      ensures context.createdAt == old(context.createdAt) && context.title == old(context.title)
      ensures context.toolCache == old(context.toolCache)
      ensures context.sessionHistory == old(context.sessionHistory) && context.sessionToolCalls == old(context.sessionToolCalls)
      ensures Persisted(ResultWrites(results), now)
    {
      ghost var h0, calls0, prior, start, cache := history, context.toolCalls, lastToolName, Tables(), context.toolCache;
      ghost var created, title, restored, restoredCalls :=
        context.createdAt, context.title, context.sessionHistory, context.sessionToolCalls;
      final := None;
      var j := 0;
      if context.store != null {
        assert WroteAll(start, start, [], context.id, context.store.maxSessions, now);
      }
      while j < |results|
        invariant 0 <= j <= |results|
        invariant context.Valid()
        invariant history == h0 + ToolResultEntries(results[..j], now)
        invariant final == FirstBreak(results[..j])
        invariant lastToolName == LastToolOf(results[..j], prior)
        invariant context.toolCalls == calls0 + ResultCalls(results[..j], now)
        invariant context.updatedAt == if j == 0 then old(context.updatedAt) else now
        invariant context.toolCache == cache
        invariant context.Holds(created, title, restored, restoredCalls)
        invariant context.store != null ==>
          Logged(start, Tables(), config.autoSave, ResultWrites(results[..j]), context.id, context.store.maxSessions, now)
      {
        final := RecordNext(results, j, now, final, h0, calls0, prior, start, cache, created, title, restored, restoredCalls);
        j := j + 1;
      }
      assert results[..j] == results;
    }

    /** One pass of that loop: the result at `j` recorded after the `j` before it. */
    method RecordNext(results: seq<(ToolCall, Response)>, j: nat, now: string, final: Option<string>,
                      ghost h0: seq<HistoryEntry>, ghost calls0: seq<SessionStore.StoredToolCall>, ghost prior: Option<string>,
                      ghost start: SessionStore.Tables, ghost cache: map<string, Response>,
                      ghost created: string, ghost title: Option<string>,
                      ghost restored: Option<seq<SessionStore.StoredMessage>>, ghost restoredCalls: Option<seq<SessionStore.StoredToolCall>>)
      returns (final': Option<string>)
      requires j < |results|
      requires context.Valid()
      requires history == h0 + ToolResultEntries(results[..j], now)
      requires final == FirstBreak(results[..j])
      requires context.toolCalls == calls0 + ResultCalls(results[..j], now)
      requires context.toolCache == cache
      requires context.Holds(created, title, restored, restoredCalls)
      requires context.store != null ==>
        Logged(start, Tables(), config.autoSave, ResultWrites(results[..j]), context.id, context.store.maxSessions, now)
      modifies this, context, context.store
      ensures context.Valid()
      ensures history == h0 + ToolResultEntries(results[..j + 1], now)
      ensures final' == FirstBreak(results[..j + 1])
      ensures lastToolName == LastToolOf(results[..j + 1], prior)
      ensures context.toolCalls == calls0 + ResultCalls(results[..j + 1], now)
      ensures context.updatedAt == now
      ensures context.toolCache == cache
      ensures context.Holds(created, title, restored, restoredCalls)
      ensures context.store != null ==>
        Logged(start, Tables(), config.autoSave, ResultWrites(results[..j + 1]), context.id, context.store.maxSessions, now)
    {
      ResultsSnoc(results, j, now, prior);
      ghost var before := Tables();
      var (call, response) := results[j];
      RecordToolResult(call, response, now);
      if context.store != null {
        LoggedThen(start, before, Tables(), config.autoSave, ResultWrites(results[..j]), ResultWrite(results[j]),
                   context.id, context.store.maxSessions, now);
      }
      final' := if final.None? && response.breakLoop then Some(response.message) else final;
    }

    /** The loop body: one result persisted and recorded in the history. */
    method RecordToolResult(call: ToolCall, response: Response, now: string)
      requires context.Valid()
      modifies this, context, context.store
      ensures context.Valid()
      ensures history == old(history) + [HistoryEntry("system", ToolResultMessage(call, response), Some(now))]
      ensures lastToolName == Some(call.name)
      ensures context.toolCalls == old(context.toolCalls) + [StoredCall((call, response), now)]
      ensures context.updatedAt == now
      ensures context.createdAt == old(context.createdAt) && context.title == old(context.title)
      ensures context.toolCache == old(context.toolCache)
      ensures context.sessionHistory == old(context.sessionHistory) && context.sessionToolCalls == old(context.sessionToolCalls)
      ensures Persisted(ResultWrite((call, response)), now)
    {
      PersistToolCall(call, response, now);
      ghost var mid := Tables();
      lastToolName := Some(call.name);
      AppendMessage("system", ToolResultMessage(call, response), now);
      assert MapRole("system") == "system" && Pushed("system", context.title) == None;
      assert [ToolCallWrite(call, response)] + [MessageWrite("system", ToolResultMessage(call, response), None)]
          == ResultWrite((call, response));
      if context.store != null {
        LoggedThen(old(Tables()), mid, Tables(), config.autoSave, [ToolCallWrite(call, response)],
                   [MessageWrite("system", ToolResultMessage(call, response), None)], context.id, context.store.maxSessions, now);
      }
    }

    /** The reply's token counts persisted, then the reply recorded as the assistant's message. */
    method RecordReply(promptTokens: int, completionTokens: int, text: string, now: string)
      requires context.Valid()
      modifies this, context, context.store
      ensures context.Valid()
      ensures history == old(history) + [HistoryEntry("assistant", text, Some(now))]
      ensures lastToolName == old(lastToolName)
      ensures context.toolCalls == old(context.toolCalls) && context.toolCache == old(context.toolCache)
      ensures context.updatedAt == now
      ensures context.createdAt == old(context.createdAt) && context.title == old(context.title)
      ensures context.sessionHistory == old(context.sessionHistory) && context.sessionToolCalls == old(context.sessionToolCalls)
      ensures Persisted([TokenWrite(promptTokens, completionTokens), MessageWrite("assistant", text, None)], now)
    {
      PersistTokenCounts(promptTokens, completionTokens, now);
      ghost var mid := Tables();
      AppendMessage("assistant", text, now);
      assert MapRole("assistant") == "assistant" && Pushed("assistant", context.title) == None;
      assert [TokenWrite(promptTokens, completionTokens)] + [MessageWrite("assistant", text, None)]
          == [TokenWrite(promptTokens, completionTokens), MessageWrite("assistant", text, None)];
      if context.store != null {
        LoggedThen(old(Tables()), mid, Tables(), config.autoSave, [TokenWrite(promptTokens, completionTokens)],
                   [MessageWrite("assistant", text, None)], context.id, context.store.maxSessions, now);
      }
    }

    /** An iteration without tool calls: the count goes up, and at the limit the reminder is recorded and the count reset. */
    method RecordNoTool(noTool: nat, now: string) returns (noTool': nat)
      requires context.Valid()
      modifies this, context, context.store
      ensures context.Valid()
      ensures noTool + 1 >= NoToolLimit ==>
        history == old(history) + [HistoryEntry("system", Reminder, Some(now))] && noTool' == 0
        && context.updatedAt == now && Persisted([MessageWrite("system", Reminder, None)], now)
      ensures noTool + 1 < NoToolLimit ==>
        history == old(history) && noTool' == noTool + 1
        && context.updatedAt == old(context.updatedAt) && Persisted([], now)
      ensures lastToolName == old(lastToolName)
      ensures context.toolCalls == old(context.toolCalls) && context.toolCache == old(context.toolCache)
      ensures context.createdAt == old(context.createdAt) && context.title == old(context.title)
      ensures context.sessionHistory == old(context.sessionHistory) && context.sessionToolCalls == old(context.sessionToolCalls)
    {
      noTool' := noTool + 1;
      if noTool' >= NoToolLimit {
        AppendMessage("system", Reminder, now);
        noTool' := 0;
      } else if context.store != null {
        assert WroteAll(Tables(), Tables(), [], context.id, context.store.maxSessions, now);
      }
    }

    /** The calls of one reply run, then each result persisted and recorded. */
    method RunTools(calls: seq<ToolCall>, outcomes: nat -> ToolOutcome, now: string) returns (stop: Option<string>)
      requires context.Valid()
      modifies this, context, context.store
      ensures context.Valid()
      ensures var ran := RunCalls(old(context.toolCache), calls, outcomes, registry, config, env);
        var results := Pairs(ran.results);
        history == old(history) + ToolResultEntries(results, now)
        && stop == FirstBreak(results)
        && lastToolName == LastToolOf(results, old(lastToolName))
        && context.toolCalls == old(context.toolCalls) + ResultCalls(results, now)
        && context.toolCache == ran.cache
        && Persisted(ResultWrites(results), now)
        && context.updatedAt == if results == [] then old(context.updatedAt) else now
      ensures context.createdAt == old(context.createdAt) && context.title == old(context.title)
      ensures context.sessionHistory == old(context.sessionHistory) && context.sessionToolCalls == old(context.sessionToolCalls)
    {
      var ran, _ := ExecuteToolCalls(calls, outcomes);
      stop := RecordToolResults(Pairs(ran), now);
    }

    /** The extracted calls of one reply run and recorded, or the tool-less count advanced when there are none. */
    method RecordCalls(calls: seq<ToolCall>, outcomes: nat -> ToolOutcome, noTool: nat, now: string)
      returns (stop: Option<string>, noTool': nat)
      requires context.Valid()
      modifies this, context, context.store
      ensures context.Valid()
      ensures var ran := RunCalls(old(context.toolCache), calls, outcomes, registry, config, env);
        var results := Pairs(ran.results);
        history == old(history) + CallEntries(results, noTool, now)
        && stop == (if results == [] then None else FirstBreak(results))
        && (stop.None? ==> noTool' == (if results != [] || noTool + 1 >= NoToolLimit then 0 else noTool + 1))
        && lastToolName == LastToolOf(results, old(lastToolName))
        && context.toolCalls == old(context.toolCalls) + ResultCalls(results, now)
        && context.toolCache == ran.cache
        && Persisted(CallWrites(results, noTool), now)
        && context.updatedAt == if CallEntries(results, noTool, now) == [] then old(context.updatedAt) else now
      ensures context.createdAt == old(context.createdAt) && context.title == old(context.title)
      ensures context.sessionHistory == old(context.sessionHistory) && context.sessionToolCalls == old(context.sessionToolCalls)
    {
      if calls == [] {
        noTool' := RecordNoTool(noTool, now);
        stop := None;
      } else {
        RunCallsInOrder(context.toolCache, calls, outcomes, registry, config, env);
        stop := RunTools(calls, outcomes, now);
        noTool' := 0;
      }
    }

    /** The tool calls of a reply extracted by the output parser, then run and recorded. */
    method ExtractAndRecord(p: Play, noTool: nat, now: string) returns (stop: Option<string>, noTool': nat)
      requires context.Valid() && p.reply.Reply?
      modifies this, context, context.store
      ensures context.Valid()
      ensures var results := TurnOf(p, old(context.toolCache), registry, config, env).results;
        history == old(history) + CallEntries(results, noTool, now)
        && stop == (if results == [] then None else FirstBreak(results))
        && (stop.None? ==> noTool' == (if results != [] || noTool + 1 >= NoToolLimit then 0 else noTool + 1))
        && lastToolName == LastToolOf(results, old(lastToolName))
        && context.toolCalls == old(context.toolCalls) + ResultCalls(results, now)
        && Persisted(CallWrites(results, noTool), now)
        && context.updatedAt == if CallEntries(results, noTool, now) == [] then old(context.updatedAt) else now
      ensures context.toolCache == PlayRan(p, old(context.toolCache), registry, config, env).cache
      ensures context.createdAt == old(context.createdAt) && context.title == old(context.title)
      ensures context.sessionHistory == old(context.sessionHistory) && context.sessionToolCalls == old(context.sessionToolCalls)
    {
      var calls := OutputParser.ExtractToolCalls(p.reply.text, registry.toolNames, registry.schemas, env.parser);
      stop, noTool' := RecordCalls(calls, p.outcomes, noTool, now);
    }

    /** The loop body after a reply: its counts and text recorded, then its tool calls extracted, run and recorded. */
    method IterateReply(p: Play, noTool: nat, now: string) returns (stop: Option<string>, noTool': nat)
      requires context.Valid() && p.reply.Reply?
      modifies this, context, context.store
      ensures context.Valid()
      ensures var t := TurnOf(p, old(context.toolCache), registry, config, env);
        history == old(history) + TurnEntries(t, noTool, now)
        && stop == TurnStop(t)
        && (stop.None? ==> noTool' == TurnNoTool(t, noTool))
        && lastToolName == TurnLastTool(t, old(lastToolName))
        && context.toolCalls == old(context.toolCalls) + TurnCalls(t, now)
        && Persisted(TurnWrites(t, noTool), now)
        && context.toolCache == PlayRan(p, old(context.toolCache), registry, config, env).cache
      ensures context.updatedAt == now
      ensures context.createdAt == old(context.createdAt) && context.title == old(context.title)
      ensures context.sessionHistory == old(context.sessionHistory) && context.sessionToolCalls == old(context.sessionToolCalls)
    {
      RecordReply(p.promptTokens, p.completionTokens, p.reply.text, now);
      ghost var mid := Tables();
      ghost var t := TurnOf(p, context.toolCache, registry, config, env);
      ghost var head := [TokenWrite(p.promptTokens, p.completionTokens), MessageWrite("assistant", p.reply.text, None)];
      ghost var h := history;
      ReplyTurnSplits(t, noTool, lastToolName, now);
      stop, noTool' := ExtractAndRecord(p, noTool, now);
      AppendAssoc(old(history), [HistoryEntry("assistant", p.reply.text, Some(now))], CallEntries(t.results, noTool, now));
      if context.store != null {
        LoggedThen(old(Tables()), mid, Tables(), config.autoSave, head, CallWrites(t.results, noTool),
                   context.id, context.store.maxSessions, now);
      }
    }

    /**
     * One pass of the loop body on the play `p`: the LLM reply recorded,
     * the tool calls extracted and run, and their results recorded.
     */
    method Iterate(p: Play, noTool: nat, now: string) returns (stop: Option<string>, noTool': nat)
      requires context.Valid()
      modifies this, context, context.store
      ensures context.Valid()
      ensures var t := TurnOf(p, old(context.toolCache), registry, config, env);
        history == old(history) + TurnEntries(t, noTool, now)
        && stop == TurnStop(t)
        && (stop.None? ==> noTool' == TurnNoTool(t, noTool))
        && lastToolName == TurnLastTool(t, old(lastToolName))
        && context.toolCalls == old(context.toolCalls) + TurnCalls(t, now)
        && Persisted(TurnWrites(t, noTool), now)
      ensures context.toolCache == PlayRan(p, old(context.toolCache), registry, config, env).cache
      ensures context.updatedAt == now
      ensures context.createdAt == old(context.createdAt) && context.title == old(context.title)
      ensures context.sessionHistory == old(context.sessionHistory) && context.sessionToolCalls == old(context.sessionToolCalls)
    {
      if !p.reply.Reply? {
        var m := LlmErrorMessage(p.reply);
        AppendMessage("assistant", m, now);
        assert MapRole("assistant") == "assistant" && Pushed("assistant", context.title) == None;
        return Some(m), noTool;
      }
      stop, noTool' := IterateReply(p, noTool, now);
    }

    /**
     * `monologue`: the user's message is recorded, then iterations run until
     * an LLM failure, a breaking tool response or the iteration limit.
     */
    method Monologue(userMessage: string, plays: nat -> Play, now: string) returns (result: string)
      requires context.Valid()
      modifies this, context, context.store
      ensures context.Valid()
      ensures var turns := TurnsOf(plays, old(context.toolCache), registry, config, env);
        var run := MonoFrom(turns, config.maxIterations, 0, 0, old(lastToolName), now);
        var log := MonoLog(turns, config.maxIterations, 0, 0, now);
        history == old(history) + [HistoryEntry("user", userMessage, Some(now))] + run.entries
        && result == run.result && lastToolName == run.lastTool
        && context.toolCalls == old(context.toolCalls) + log.calls
        && context.toolCache == CacheAt(plays, old(context.toolCache), run.iterations, registry, config, env)
        && Persisted([MessageWrite("user", userMessage, Pushed("user", context.title))] + log.writes, now)
      ensures context.title == TitleAfter(old(context.title), "user", userMessage)
      ensures context.updatedAt == now
      ensures context.createdAt == old(context.createdAt)
      ensures context.sessionHistory == old(context.sessionHistory) && context.sessionToolCalls == old(context.sessionToolCalls)
    {
      AppendMessage("user", userMessage, now);
      ghost var mid := Tables();
      ghost var first := [MessageWrite("user", userMessage, Pushed("user", context.title))];
      ghost var turns := TurnsOf(plays, context.toolCache, registry, config, env);
      ghost var cache, lastTool := context.toolCache, lastToolName;
      ghost var schedule, caches;
      result, schedule, caches := Iterations(plays, now);
      ScheduledRuns(schedule, caches, plays, cache, config.maxIterations, lastTool, now, registry, config, env);
      if context.store != null {
        LoggedThen(old(Tables()), mid, Tables(), config.autoSave, first,
                   MonoLog(turns, config.maxIterations, 0, 0, now).writes, context.id, context.store.maxSessions, now);
      }
    }

    /**
     * Iteration number `iteration` of the loop over the schedule
     * `turns`/`caches`, as one step of `MonoFrom` and `MonoLog` towards the
     * whole run `total` and its log `log`, which start from the history `h0`:
     * `cur` and `curLog` are the run and the log from this iteration on, and
     * `done` is what the earlier iterations recorded on top of `calls0` and
     * the tables `start`.  The new values keep the same relations, or, when
     * the loop stops, the run is complete.
     */
    method IterationStep(plays: nat -> Play, maxIter: int, iteration: nat, noTool: nat, now: string,
                         ghost turns: nat -> Turn, ghost caches: nat -> map<string, Response>,
                         ghost runs: (nat, nat, Option<string>) -> MonoRun, ghost logs: (nat, nat) -> Log,
                         ghost h0: seq<HistoryEntry>, ghost total: MonoRun, ghost log: Log,
                         ghost going: Option<string>, ghost cur: MonoRun, ghost curLog: Log,
                         ghost done: Log, ghost calls0: seq<SessionStore.StoredToolCall>, ghost start: SessionStore.Tables,
                         ghost created: string, ghost title: Option<string>,
                         ghost restored: Option<seq<SessionStore.StoredMessage>>, ghost restoredCalls: Option<seq<SessionStore.StoredToolCall>>)
      returns (stop: Option<string>, noTool': nat, ghost next: MonoRun, ghost nextLog: Log, ghost done': Log)
      requires context.Valid()
      requires iteration < maxIter
      requires Scheduled(turns, caches, plays, iteration, registry, config, env)
      requires context.toolCache == caches(iteration)
      requires Tabulates(runs, logs, turns, maxIter, now)
      requires going.None?
      requires Progress(runs, logs, iteration, noTool, lastToolName, going, history, cur, curLog, done, h0, total, log)
      requires context.toolCalls == calls0 + done.calls
      requires context.store != null ==>
        Logged(start, Tables(), config.autoSave, done.writes, context.id, context.store.maxSessions, now)
      requires context.Holds(created, title, restored, restoredCalls)
      modifies this, context, context.store
      ensures context.Valid()
      ensures context.Holds(created, title, restored, restoredCalls)
      ensures context.toolCache == caches(iteration + 1)
      ensures context.toolCalls == calls0 + done'.calls
      ensures context.store != null ==>
        Logged(start, Tables(), config.autoSave, done'.writes, context.id, context.store.maxSessions, now)
      ensures Progress(runs, logs, iteration + 1, noTool', lastToolName, stop, history, next, nextLog, done', h0, total, log)
      ensures context.updatedAt == now
    {
      ghost var t := turns(iteration);
      ghost var h := history;
      ghost var entries := TurnEntries(t, noTool, now);
      ghost var lastTool := lastToolName;
      ghost var here := Log(TurnCalls(t, now), TurnWrites(t, noTool));
      ghost var before := Tables();
      stop, noTool' := Iterate(plays(iteration), noTool, now);
      if context.store != null {
        LoggedThen(start, before, Tables(), config.autoSave, done.writes, here.writes,
                   context.id, context.store.maxSessions, now);
      }
      AppendAssoc(calls0, done.calls, here.calls);
      done' := LogThen(done, here);
      if stop.Some? {
        MonoStepStops(turns, maxIter, iteration, noTool, lastTool, now);
        next, nextLog := cur, curLog;
        assert cur.entries == entries;
      } else {
        MonoStepContinues(turns, maxIter, iteration, noTool, lastTool, now);
        next := MonoFrom(turns, maxIter, iteration + 1, noTool', lastToolName, now);
        nextLog := MonoLog(turns, maxIter, iteration + 1, noTool', now);
        AppendAssoc(h, entries, next.entries);
        LogAssoc(done, here, nextLog);
      }
    }

    /**
     * The `while iteration < max_iter` loop of `monologue` over the schedule
     * `turns`/`caches`, from the first iteration until one stops the run or
     * `maxIter` is reached; `Progress` says where it stands in the whole run
     * `total` and its log `log`.
     */
    method RunIterations(plays: nat -> Play, maxIter: int, now: string,
                         ghost turns: nat -> Turn, ghost caches: nat -> map<string, Response>,
                         ghost runs: (nat, nat, Option<string>) -> MonoRun, ghost logs: (nat, nat) -> Log,
                         ghost h0: seq<HistoryEntry>, ghost total: MonoRun, ghost log: Log,
                         ghost calls0: seq<SessionStore.StoredToolCall>, ghost start: SessionStore.Tables,
                         ghost created: string, ghost title: Option<string>,
                         ghost restored: Option<seq<SessionStore.StoredMessage>>, ghost restoredCalls: Option<seq<SessionStore.StoredToolCall>>)
      returns (stop: Option<string>, ghost iteration: nat, ghost noTool: nat, ghost rest: MonoRun, ghost restLog: Log, ghost done: Log)
      requires context.Valid()
      requires forall k: nat :: Scheduled(turns, caches, plays, k, registry, config, env)
      requires context.toolCache == caches(0)
      requires context.toolCalls == calls0
      requires context.store != null ==>
        Logged(start, Tables(), config.autoSave, [], context.id, context.store.maxSessions, now)
      requires Tabulates(runs, logs, turns, maxIter, now)
      requires Progress(runs, logs, 0, 0, lastToolName, None, history, total, log, Log([], []), h0, total, log)
      requires context.Holds(created, title, restored, restoredCalls)
      modifies this, context, context.store
      ensures !(iteration < maxIter && stop.None?)
      ensures context.Valid()
      ensures context.toolCache == caches(iteration)
      ensures context.toolCalls == calls0 + done.calls
      ensures context.store != null ==>
        Logged(start, Tables(), config.autoSave, done.writes, context.id, context.store.maxSessions, now)
      ensures Progress(runs, logs, iteration, noTool, lastToolName, stop, history, rest, restLog, done, h0, total, log)
      ensures context.updatedAt == if iteration > 0 then now else old(context.updatedAt)
      ensures context.Holds(created, title, restored, restoredCalls)
    {
      var i: nat := 0;
      var n: nat := 0;
      stop := None;
      rest, restLog, done := total, log, Log([], []);
      assert calls0 + [] == calls0;
      while i < maxIter && stop.None?
        invariant context.Valid()
        invariant context.toolCache == caches(i)
        invariant context.toolCalls == calls0 + done.calls
        invariant context.store != null ==>
          Logged(start, Tables(), config.autoSave, done.writes, context.id, context.store.maxSessions, now)
        invariant Progress(runs, logs, i, n, lastToolName, stop, history, rest, restLog, done, h0, total, log)
        invariant context.updatedAt == if i > 0 then now else old(context.updatedAt)
        invariant context.Holds(created, title, restored, restoredCalls)
        decreases maxIter - i
      {
        stop, n, rest, restLog, done :=
          IterationStep(plays, maxIter, i, n, now, turns, caches, runs, logs, h0, total, log, stop, rest, restLog, done, calls0, start,
                        created, title, restored, restoredCalls);
        i := i + 1;
      }
      iteration, noTool := i, n;
    }

    /**
     * The loop of `monologue` over the schedule that the plays give from the
     * session's tool cache, and its fallback answer when no iteration stops it.
     */
    method Iterations(plays: nat -> Play, now: string)
      returns (result: string, ghost turns: nat -> Turn, ghost caches: nat -> map<string, Response>)
      requires context.Valid()
      modifies this, context, context.store
      ensures context.Valid()
      ensures caches(0) == old(context.toolCache)
      ensures forall k: nat :: Scheduled(turns, caches, plays, k, registry, config, env)
      ensures var run := MonoFrom(turns, config.maxIterations, 0, 0, old(lastToolName), now);
        var log := MonoLog(turns, config.maxIterations, 0, 0, now);
        history == old(history) + run.entries && result == run.result && lastToolName == run.lastTool
        && context.toolCalls == old(context.toolCalls) + log.calls
        && context.toolCache == caches(run.iterations)
        && Persisted(log.writes, now)
      ensures context.updatedAt == if config.maxIterations > 0 then now else old(context.updatedAt)
      ensures context.createdAt == old(context.createdAt) && context.title == old(context.title)
      ensures context.sessionHistory == old(context.sessionHistory) && context.sessionToolCalls == old(context.sessionToolCalls)
    {
      var maxIter := config.maxIterations;
      ghost var h0, calls0, start := history, context.toolCalls, Tables();
      ghost var created, title, restored, restoredCalls :=
        context.createdAt, context.title, context.sessionHistory, context.sessionToolCalls;
      turns, caches := Schedule(plays, context.toolCache, registry, config, env);
      ghost var runs, logs := Tabulate(turns, maxIter, now);
      ghost var total := MonoFrom(turns, maxIter, 0, 0, lastToolName, now);
      ghost var log := MonoLog(turns, maxIter, 0, 0, now);
      if context.store != null {
        assert WroteAll(start, start, [], context.id, context.store.maxSessions, now);
      }
      assert LogThen(Log([], []), log) == log;
      var stop, iteration, noTool, rest, restLog, done :=
        RunIterations(plays, maxIter, now, turns, caches, runs, logs, h0, total, log, calls0, start, created, title, restored, restoredCalls);
      if stop.Some? {
        result := stop.value;
      } else {
        assert rest == MonoFrom(turns, maxIter, iteration, noTool, lastToolName, now);
        assert restLog == MonoLog(turns, maxIter, iteration, noTool, now);
        assert rest.entries == [] && rest.result == Fallback && restLog == Log([], []);
        assert history + [] == history;
        assert done.calls + [] == done.calls && done.writes + [] == done.writes;
        result := Fallback;
      }
    }
  }
}
