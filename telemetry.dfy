/**
 * Session telemetry (agent/telemetry.py): metric records for model calls,
 * tool calls, loop iterations and memory operations, the final tool, and the
 * session summary. The JSON-lines log is modelled by the sequence of event
 * types written to it; timestamps, the clock and OpenTelemetry spans are
 * left out.
 */
module Telemetry {
  import opened Wrappers
  import opened JsonValues

  datatype LlmCallMetric = LlmCallMetric(model: string, promptTokens: int, completionTokens: int, latencyMs: real,
                                         error: Option<string>)

  datatype ToolCallMetric = ToolCallMetric(toolName: string, args: Dict, durationMs: real, cached: bool,
                                           resultSummary: string, error: Option<string>)

  datatype LoopIterationMetric = LoopIterationMetric(iteration: int, decision: string, durationMs: real)

  datatype MemoryOpMetric = MemoryOpMetric(operation: string, query: Option<string>, resultCount: int,
                                           topScore: Option<real>, namespace: Option<string>, durationMs: real)

  /** The session-level summary. */
  datatype LoopMetrics = LoopMetrics(sessionId: string, totalIterations: nat, toolCalls: seq<ToolCallMetric>,
                                     llmCalls: seq<LlmCallMetric>, totalDurationMs: real, memoryOperations: nat,
                                     finalTool: string)

  class Recorder {
    const enabled: bool
    const sessionId: string
    var llmCalls: seq<LlmCallMetric>
    var toolCalls: seq<ToolCallMetric>
    var loopIterations: seq<LoopIterationMetric>
    var memoryOps: seq<MemoryOpMetric>
    var totalIterations: nat
    var finalTool: string
    /** The `event` field of each line appended to the session log, in order. */
    var events: seq<string>

    /**
     * The iteration counter equals the number of iteration metrics, and a
     * disabled recorder holds nothing and has written nothing.
     */
    predicate Valid()
      reads this
    {
      totalIterations == |loopIterations|
      && (!enabled ==> llmCalls == [] && toolCalls == [] && loopIterations == [] && memoryOps == []
                       && finalTool == "" && events == [])
    }

    constructor(enabled: bool, sessionId: string)
      ensures Valid() && this.enabled == enabled && this.sessionId == sessionId
      ensures llmCalls == [] && toolCalls == [] && loopIterations == [] && memoryOps == []
      ensures totalIterations == 0 && finalTool == "" && events == []
    {
      this.enabled := enabled;
      this.sessionId := sessionId;
      llmCalls := [];
      toolCalls := [];
      loopIterations := [];
      memoryOps := [];
      totalIterations := 0;
      finalTool := "";
      events := [];
    }

    /** `record_llm_call` */
    method RecordLlmCall(model: string, promptTokens: int, completionTokens: int, latencyMs: real, error: Option<string>)
      requires Valid()
      modifies this
      ensures Valid()
      ensures enabled ==> llmCalls == old(llmCalls) + [LlmCallMetric(model, promptTokens, completionTokens, latencyMs, error)]
                          && events == old(events) + ["llm_call"]
      ensures !enabled ==> llmCalls == old(llmCalls) && events == old(events)
      ensures toolCalls == old(toolCalls) && loopIterations == old(loopIterations) && memoryOps == old(memoryOps)
      ensures totalIterations == old(totalIterations) && finalTool == old(finalTool)
    {
      if !enabled {
        return;
      }
      llmCalls := llmCalls + [LlmCallMetric(model, promptTokens, completionTokens, latencyMs, error)];
      events := events + ["llm_call"];
    }

    /** `record_tool_call` */
    method RecordToolCall(toolName: string, args: Dict, durationMs: real, cached: bool, resultSummary: string,
                          error: Option<string>)
      requires Valid()
      modifies this
      ensures Valid()
      ensures enabled ==> toolCalls == old(toolCalls) + [ToolCallMetric(toolName, args, durationMs, cached, resultSummary, error)]
                          && events == old(events) + ["tool_call"]
      ensures !enabled ==> toolCalls == old(toolCalls) && events == old(events)
      ensures llmCalls == old(llmCalls) && loopIterations == old(loopIterations) && memoryOps == old(memoryOps)
      ensures totalIterations == old(totalIterations) && finalTool == old(finalTool)
    {
      if !enabled {
        return;
      }
      toolCalls := toolCalls + [ToolCallMetric(toolName, args, durationMs, cached, resultSummary, error)];
      events := events + ["tool_call"];
    }

    /** `record_iteration`: the counter goes up by exactly one with each metric. */
    method RecordIteration(iteration: int, decision: string, durationMs: real)
      requires Valid()
      modifies this
      ensures Valid()
      ensures enabled ==> loopIterations == old(loopIterations) + [LoopIterationMetric(iteration, decision, durationMs)]
                          && totalIterations == old(totalIterations) + 1 && events == old(events) + ["loop_iteration"]
      ensures !enabled ==> loopIterations == old(loopIterations) && totalIterations == old(totalIterations)
                           && events == old(events)
      ensures llmCalls == old(llmCalls) && toolCalls == old(toolCalls) && memoryOps == old(memoryOps)
      ensures finalTool == old(finalTool)
    {
      if !enabled {
        return;
      }
      totalIterations := totalIterations + 1;
      loopIterations := loopIterations + [LoopIterationMetric(iteration, decision, durationMs)];
      events := events + ["loop_iteration"];
    }

    /** `record_memory_operation` */
    method RecordMemoryOperation(operation: string, query: Option<string>, resultCount: int, topScore: Option<real>,
                                 namespace: Option<string>, durationMs: real)
      requires Valid()
      modifies this
      ensures Valid()
      ensures enabled ==> memoryOps == old(memoryOps) + [MemoryOpMetric(operation, query, resultCount, topScore, namespace, durationMs)]
                          && events == old(events) + ["memory_operation"]
      ensures !enabled ==> memoryOps == old(memoryOps) && events == old(events)
      ensures llmCalls == old(llmCalls) && toolCalls == old(toolCalls) && loopIterations == old(loopIterations)
      ensures totalIterations == old(totalIterations) && finalTool == old(finalTool)
    {
      if !enabled {
        return;
      }
      memoryOps := memoryOps + [MemoryOpMetric(operation, query, resultCount, topScore, namespace, durationMs)];
      events := events + ["memory_operation"];
    }

    /** `finalize`: the last tool is recorded and the summary event written. */
    method Finalize(tool: string)
      requires Valid()
      modifies this
      ensures Valid()
      ensures enabled ==> finalTool == tool && events == old(events) + ["session_summary"]
      ensures !enabled ==> finalTool == old(finalTool) && events == old(events)
      ensures llmCalls == old(llmCalls) && toolCalls == old(toolCalls) && loopIterations == old(loopIterations)
      ensures memoryOps == old(memoryOps) && totalIterations == old(totalIterations)
    {
      if !enabled {
        return;
      }
      finalTool := tool;
      events := events + ["session_summary"];
    }

    /**
     * `summary`: the iteration count is the number of recorded iterations,
     * the memory count the number of memory metrics, and the metric lists
     * are the recorded ones (value copies). `elapsedMs` is the clock reading.
     */
    function Summary(elapsedMs: real): (s: LoopMetrics)
      requires Valid()
      reads this
      ensures s.sessionId == sessionId && s.totalIterations == |loopIterations|
      ensures s.toolCalls == toolCalls && s.llmCalls == llmCalls && s.totalDurationMs == elapsedMs
      ensures s.memoryOperations == |memoryOps| && s.finalTool == finalTool
    {
      LoopMetrics(sessionId, totalIterations, toolCalls, llmCalls, elapsedMs, |memoryOps|, finalTool)
    }
  }

  /**
   * One model call, one tool call, one iteration, one memory operation and
   * a final tool: the summary counts one iteration and one memory operation,
   * and the log holds all five event types.
   */
  method RecordsEventsScenario() returns (s: LoopMetrics, events: seq<string>)
    ensures s.totalIterations == 1 && s.memoryOperations == 1 && s.finalTool == "response"
    ensures |events| >= 5
    ensures "llm_call" in events && "tool_call" in events && "loop_iteration" in events
    ensures "memory_operation" in events && "session_summary" in events
  {
    var t := new Recorder(true, "sess123");
    t.RecordLlmCall("llama3.2", 10, 20, 123.4, None);
    t.RecordToolCall("memory", [("action", JStr("search"))], 55.5, false, "Memories found", None);
    t.RecordIteration(1, "tool:memory", 200.0);
    t.RecordMemoryOperation("search", Some("test"), 2, Some(0.9), Some("default"), 10.0);
    t.Finalize("response");
    s := t.Summary(0.0);
    events := t.events;
    assert events == ["llm_call", "tool_call", "loop_iteration", "memory_operation", "session_summary"];
  }

  /** A disabled recorder writes no log line and records nothing. */
  method DisabledScenario() returns (s: LoopMetrics, events: seq<string>)
    ensures events == [] && s.totalIterations == 0 && s.llmCalls == [] && s.finalTool == ""
  {
    var t := new Recorder(false, "sess456");
    t.RecordLlmCall("llama3.2", 1, 1, 1.0, None);
    t.RecordIteration(1, "tool:memory", 1.0);
    t.Finalize("response");
    s := t.Summary(0.0);
    events := t.events;
  }
}
