# Local Ollama agents: a Dafny model of the Python back end

This project models the Python back end of a local agent framework built on Ollama, and proves properties of that model. It covers:

- the agent's monologue loop, message history, tool dispatch and result cache (`Agent`, `AgentContext`, `CallSubordinate`);
- the tool-call parser: brace matching, payload normalisation, validation and coercion, and the order in which strategies are tried (`OutputParser`);
- model availability, the retry loop and the chat stream (`Models`), and model routing (`ModelRouter`);
- MCP tool naming, schema mapping, request ids and discovery (`McpBridge`);
- the SQLite session store, held as maps and sequences (`SessionStore`), and the chat web routes (`ChatRoutes`);
- memory: the FAISS metadata store, namespaces, compaction and listing (`FaissStore`, `MemoryManager`), knowledge import and chunking (`KnowledgeImport`), and the memory tool (`MemoryTool`);
- prompt templates (`TemplateEngine`), extension discovery and dispatch (`ExtensionManager`), and the history trimmer (`MessageTrimmer`);
- telemetry counters (`Telemetry`), the code execution tool (`CodeExecution`), and web authentication (`Auth`).

Shared modules hold Python's string operations (`Text`), JSON values and dicts (`JsonValues`), a sort used where the code sorts (`Sorting`), and `Option`/`Result` (`Wrappers`).

The model follows the Python back end.

Code that keeps state becomes a class whose methods change its fields. Pure code becomes functions, each with lemmas that state what the code promises. Each loop is a method proved equal to a specification function.

Anything outside the program enters as a parameter:

- LLM replies and tool results;
- FAISS search hits, json.loads, the regex extractors and JSON repair;
- clocks, uuids and hashes;
- file contents and subprocess output.

## Model

| member | source | states |
|---|---|---|
| Agent.MapRole | agent/agent.py:455 | the role is always one Ollama accepts, kept exactly when it is user, assistant or system, otherwise system |
| Agent.SummarizeText | agent/agent.py:609-615 | "" exactly for blank text; the collapsed text when it has at most 200 characters; otherwise its first 200 characters right-stripped plus "...", so never more than 203 characters |
| Agent.DeriveSessionTitle | agent/agent.py:545-551 | "" exactly for blank content; the collapsed content when it has at most 60 characters; otherwise its first 60 characters right-stripped plus "...", at most 63 in all |
| Agent.SummaryIsTitleRule | agent/agent.py:609-615 | the telemetry summary is the session-title rule with limit 200 |
| Agent.TitleAfter | agent/agent.py:463-466 | the title only changes on a user message when no non-empty title exists, and then to the derived title |
| Agent.FirstUserMessageNames | agent/agent.py:463-466 | the first non-blank user message names the session and no later message renames it |
| Agent.TitlesKeepTitle | agent/agent.py:463 | once a non-empty title exists, no message changes it |
| Agent.GetToolTimeout | agent/agent.py:421-428 | the configured per-tool timeout, else the tool's own, else the default |
| Agent.OutcomeResponse | agent/agent.py:404-411 | a completed run gives the tool's response; a timeout or an exception gives a non-breaking "[Tool '<name>' ..." message |
| Agent.RepeatedCallCached | agent/agent.py:384-417 | a cacheable call repeated returns the stored message and break flag, marked cached, without running the tool, and the cache is unchanged |
| Agent.UncachableRuns | agent/agent.py:387-419 | a call that cannot be cached always runs, is never marked cached and leaves the cache as it was |
| Agent.CacheWritesOwnKey | agent/agent.py:413-417 | a run writes the cache under its own key only |
| Agent.RunCallsInOrder | agent/agent.py:334-358 | results come in call order, and an unknown tool gives the "[Error: Unknown tool ...]" response, not cached |
| Agent.ToolResultEntries | agent/agent.py:226-230 | one system entry "[Tool '<name>' result]:\n<message>" per result, in order |
| Agent.FirstBreakIsFirst | agent/agent.py:233-235 | no final response exactly when no result breaks the loop; otherwise the message of the first breaking result |
| Agent.ResultsSnoc | agent/agent.py:221-235 | one more result adds its entry, keeps an earlier break, and names its tool as the last tool |
| Agent.MonoStepStops | agent/agent.py:127-168 | an iteration that ends the loop contributes its entries and returns the LLM error text or the first break |
| Agent.MonoStepContinues | agent/agent.py:199-249 | an iteration that does not end the loop contributes its entries and goes on with the updated counters |
| Agent.MonoUsesOnlyAllowedTurns | agent/agent.py:78-83 | the run looks at no more than max_monologue_iterations iterations and counts at most that many |
| Agent.QuietStep | agent/agent.py:199-212 | a reply without a tool call appends the assistant text and continues |
| Agent.QuietCount | agent/agent.py:200-212 | below the limit it adds one to the tool-less count and no reminder |
| Agent.QuietRemind | agent/agent.py:202-210 | the fifth tool-less iteration in a row appends the reminder and resets the count |
| Agent.QuietLastTurn | agent/agent.py:202-210 | the fifth quiet turn's entries are the assistant text then the reminder, and the count restarts at 0 |
| Agent.QuietTurns | agent/agent.py:199-212 | a run of quiet turns up to the limit adds their assistant entries and then exactly one reminder |
| Agent.FiveQuietTurnsRemind | agent/agent.py:199-212 | five tool-less replies in a row give five assistant entries followed by the reminder |
| Agent.FirstBreakReturned | agent/agent.py:219-243 | when a tool's response breaks the loop, the monologue returns the first breaking message after recording every result, and ends that iteration |
| Agent.NoBreakFallsBack | agent/agent.py:251-255 | when no iteration fails or breaks, the fallback text is returned after exactly max_monologue_iterations iterations |
| Agent.LlmErrorMessages | agent/agent.py:127-168 | the LLM error texts begin "[LLM Model Error: ", "[LLM Connection Error: " or "[LLM " |
| Agent.LlmFailureEnds | agent/agent.py:127-168 | an LLM failure appends one assistant entry with the error text and returns it |
| Agent.TurnsOfStep | agent/agent.py:196-217 | the turn of iteration n is made from the n-th reply against the cache the earlier turns left |
| Agent.Schedule | agent/agent.py:196-217 | every sequence of replies gives a schedule of turns and caches, starting from the current cache |
| Agent.ScheduledRuns | agent/agent.py:196-217 | a turn of the schedule has the results of running its extracted calls against the scheduled cache, which then becomes the next one |
| Agent.TurnAnswersExtractedCalls | agent/agent.py:196-221 | the results of a turn are those of exactly the calls extracted from its reply, in order |
| Agent.WritesCreateNoSession | agent/agent.py:468-506 | the agent's writes never add a session to the store |
| Agent.MissingSessionUntouched | agent/agent.py:468-506 | for a session the store does not have, the writes change nothing |
| Agent.ReplyTurnSplits | agent/agent.py:185-235 | a reply turn's entries and writes are the reply's, then those of its calls |
| Agent.ResultWritesMatchEntries | agent/agent.py:221-230 | the messages saved for the results are exactly the result entries appended |
| Agent.TurnWritesMatchEntries | agent/agent.py:138-230 | the messages an iteration saves are exactly the entries it appends to the history |
| Agent.MonoLogMatchesEntries | agent/agent.py:78-255 | over a whole run the messages saved are exactly the history entries appended |
| Agent.Tabulate | agent/agent.py:78-255 | the run from any iteration and its writes exist as functions of the iteration and counters |
| Agent.ContextData.constructor | agent/agent_context.py:27-34 | a fresh context: the given id and store, equal created/updated times, no title, no tool calls, an empty cache |
| Agent.Agent.constructor | agent/agent.py:30-44 | an agent with an empty history and no last tool name |
| Agent.Agent.AppendMessage | agent/agent.py:452-483 | one entry with the mapped role appended; updated_at set; the title rule applied; no other context field changes; with auto-save on and a known session the store goes through save_message (the row added, the session touched and titled, the oldest sessions pruned) and, for a titled user message, set_session_title; otherwise the store is unchanged |
| Agent.Agent.SaveToStore | agent/agent.py:468-483 | with auto-save on and a known session the store goes through save_message (row added, session touched, sessions pruned) and then, for a user message with a title, set_session_title; without auto-save or for an unknown session the store is unchanged |
| Agent.Agent.PersistToolCall | agent/agent.py:485-506 | the call is appended to the context tool_calls and no other context field changes; with auto-save on and a known session the store goes through save_tool_call (row added, session touched, sessions pruned); otherwise the store is unchanged |
| Agent.Agent.PersistTokenCounts | agent/agent.py:508-531 | with auto-save on the session's counters grow by the estimates; otherwise the store is unchanged |
| Agent.Agent.ExecuteToolWithInstance | agent/agent.py:378-419 | equals ExecutedWithCache: a cached hit, or a run whose response is stored when cacheable |
| Agent.Agent.ExecuteToolCalls | agent/agent.py:316-345 | [] for no calls; otherwise the results of RunCalls in call order, with the parallel path taken exactly for more than one call all parallel-safe |
| Agent.Agent.AllSafe | agent/agent.py:329-332 | true exactly when every call names a known tool that is parallel-safe for its args |
| Agent.Agent.RecordToolResults | agent/agent.py:221-235 | appends one result entry per result in order, returns the first breaking message, names the last tool; the context tool_calls gain one stored call per result and updated_at is touched when there are results; the store goes through each result's tool-call save then its message save, in order; title and cache unchanged |
| Agent.Agent.RecordToolResult | agent/agent.py:223-230 | appends one system result entry, names the tool as the last tool, appends the stored call to the context tool_calls, touches updated_at, and persists the tool call then the message |
| Agent.Agent.Iterate | agent/agent.py:82-249 | one iteration on the turn made by extracting the reply's tool calls and running them against the current cache: adds TurnEntries, stops with TurnStop, updates the tool-less count and last tool, appends TurnCalls to the context tool_calls, leaves the cache as the run left it, and persists TurnWrites |
| Agent.Agent.RecordReply | agent/agent.py:185-194 | the token counts are persisted, then the assistant reply is appended and saved; tool calls, cache and title unchanged |
| Agent.Agent.RecordNoTool | agent/agent.py:199-212 | below the limit the tool-less count grows and nothing is written; at the fifth the reminder is appended and saved and the count resets |
| Agent.Agent.RunTools | agent/agent.py:214-235 | the calls run against the cache as RunCalls says; their results are recorded as RecordToolResults says, and the cache is the run's |
| Agent.Agent.RecordCalls | agent/agent.py:199-235 | no calls take the tool-less path; otherwise the calls run and their results are recorded, with the count reset |
| Agent.Agent.ExtractAndRecord | agent/agent.py:196-235 | the calls extracted from the reply are the ones run and recorded, against the current cache |
| Agent.Agent.IterateReply | agent/agent.py:170-249 | a reply is persisted and recorded, then its tool calls handled: the whole turn of TurnOf |
| Agent.Agent.RecordNext | agent/agent.py:221-235 | one more result keeps the loop's invariant: entries, first break, last tool, context tool_calls and store writes for the results so far |
| Agent.Agent.RunIterations | agent/agent.py:82-249 | the while loop ends with the iteration limit reached or a stop, with the run so far and the rest of MonoFrom adding up to the whole run |
| Agent.Agent.IterationStep | agent/agent.py:82-249 | an iteration either finishes the run or leaves the rest of the run to the next iteration; the context tool_calls, the cache and the store follow the same schedule, and title and creation time stay put |
| Agent.Agent.Iterations | agent/agent.py:78-255 | the loop's history, result and last tool equal MonoFrom from iteration 0; the context tool_calls gain MonoLog's calls, the store goes through MonoLog's writes, and the cache is the one scheduled after the iterations run |
| Agent.Agent.Monologue | agent/agent.py:68-255 | the user message is appended, then the entries of MonoFrom over the turns the parser and executor make from the replies; the result and last tool are MonoFrom's; the title is set by the user message; the tool calls, the cache and the store writes are MonoLog's |
| AgentContext.ContextId | agent/agent_context.py:22 | a non-empty given session id is kept; otherwise the first 12 hex digits of a fresh uuid |
| AgentContext.RestoredTitle | agent/agent_context.py:49-50 | a title is restored exactly when the stored session has a non-empty one, and it is that title |
| AgentContext.RestoredStamp | agent/agent_context.py:51-54 | a non-empty stored timestamp replaces the fresh one, otherwise the fresh one stays |
| AgentContext.RestoredHistoryKeeps | agent/agent_context.py:72-77 | the restored history has one role/content entry per stored message, in order |
| AgentContext.Restore | agent/agent_context.py:43-54 | a found session sets history, tool calls, title and timestamps from the store; a missing one leaves the fresh data |
| AgentContext.AgentContext.constructor | agent/agent_context.py:21-54 | the id rule; no store unless persisting; with persistence the session is ensured and, for a given id, restored |
| AgentContext.AgentContext.CreateAgent | agent/agent_context.py:56-79 | the new agent is registered under its id, replacing any previous one; only agent 0 gets the restored history |
| AgentContext.AgentContext.GetAgent | agent/agent_context.py:81-82 | the registered agent for the id, or None |
| SessionStore.DeriveTitle | agent/session_store.py:337-343 | "" exactly for blank content; the collapsed content when it fits in max_len; otherwise its first max_len characters right-stripped plus "...", so at most max_len + 3 characters |
| SessionStore.DeriveTitleShape | agent/session_store.py:338 | a short title is single-spaced with no edge blanks, and collapsing is idempotent |
| SessionStore.SetTitleFallbackUnused | agent/session_store.py:91 | the `or title.strip()` fallback never applies: a derived title is empty only for a blank title |
| SessionStore.Timestamp | agent/session_store.py:63-109 | a non-empty created_at is used, otherwise now |
| SessionStore.EnsuredEffect | agent/session_store.py:43-58 | a new row has created = updated = now, the model, a NULL title and zero counters; an existing row changes only updated_at and, when given, the model |
| SessionStore.AfterMessageTitle | agent/session_store.py:72-86 | the title changes exactly for a non-blank user message on an untitled session, to the derived title; updated_at becomes the timestamp; nothing else changes |
| SessionStore.IncrementedKeepsTotal | agent/session_store.py:149-161 | incrementing keeps total = prompt + completion and adds exactly prompt + completion to the total |
| SessionStore.MessagesIn | agent/session_store.py:286 | the cascade keeps only messages of live sessions |
| SessionStore.ToolCallsIn | agent/session_store.py:296 | the cascade keeps only tool calls of live sessions |
| SessionStore.MessagesInAll | agent/session_store.py:286 | when every message's session is live, the cascade removes nothing |
| SessionStore.ToolCallsInAll | agent/session_store.py:296 | when every tool call's session is live, the cascade removes nothing |
| SessionStore.MessagesInTwice | agent/session_store.py:286 | two cascades equal the cascade to the smaller set of sessions |
| SessionStore.ToolCallsInTwice | agent/session_store.py:296 | two cascades equal the cascade to the smaller set of sessions |
| SessionStore.MessagesOfAppend | agent/session_store.py:173-176 | a new message row appears at the end of its own session's messages only |
| SessionStore.MessagesOfSurvive | agent/session_store.py:173-176 | a live session keeps all its messages through a cascade |
| SessionStore.MessagesOfGone | agent/session_store.py:173-176 | a deleted session has no messages left |
| SessionStore.RowLeTotal | agent/session_store.py:315 | ordering by (updated_at, created_at) is total |
| SessionStore.RowLeTransitive | agent/session_store.py:315 | ordering by (updated_at, created_at) is transitive |
| SessionStore.OldestRows | agent/session_store.py:312-319 | n distinct session ids, each no newer by (updated_at, created_at) than any session not chosen |
| SessionStore.OldestExists | agent/session_store.py:315 | every non-empty set of sessions has an oldest one |
| SessionStore.PrunedBounds | agent/session_store.py:302-309 | after pruning at most max_sessions remain, and nothing is removed when pruning is off or the table is small enough |
| SessionStore.DeletedStep | agent/session_store.py:320-324 | deleting one more chosen row keeps the other rows and shrinks the table by one |
| SessionStore.Store.constructor | agent/session_store.py:29-33 | an empty store with the given max_sessions |
| SessionStore.Store.GetSession | agent/session_store.py:163-212 | None exactly for an unknown id; otherwise its row, its messages and its tool calls in insertion order |
| SessionStore.Store.OldestSessions | agent/session_store.py:312-319 | the excess oldest sessions by (updated_at, created_at) |
| SessionStore.Store.DeleteRow | agent/session_store.py:321-324 | one session removed, its messages and tool calls cascaded |
| SessionStore.Store.PruneSessions | agent/session_store.py:302-324 | at most max_sessions remain, the removed ones no newer than any kept one, kept rows unchanged, and the cascade applied |
| SessionStore.Store.DeleteSessions | agent/session_store.py:320-324 | exactly the listed sessions are removed, the rest unchanged, with the cascade |
| SessionStore.Store.EnsureSession | agent/session_store.py:35-59 | the session is inserted or refreshed by Ensured, then the table is pruned |
| SessionStore.Store.SaveMessage | agent/session_store.py:61-87 | an unknown session raises with nothing changed; otherwise the message is appended, updated_at and the title rule applied, and the table pruned |
| SessionStore.Store.SetTitle | agent/session_store.py:89-98 | a blank title changes nothing; otherwise the derived title and a new updated_at on that session only |
| SessionStore.Store.SaveToolCall | agent/session_store.py:100-122 | an unknown session raises with nothing changed; otherwise the tool call is appended, updated_at set and the table pruned |
| SessionStore.Store.UpdateTokenCounts | agent/session_store.py:124-140 | the three counters of that session overwritten; others untouched |
| SessionStore.Store.IncrementTokenCounts | agent/session_store.py:142-161 | prompt, completion and their sum added to that session's counters |
| SessionStore.Store.DeleteSession | agent/session_store.py:255-262 | true exactly when the session existed; it and its rows are gone |
| OutputParser.FindJsonObjects | agent/output_parser.py:251-273 | the scanning loop returns exactly JsonObjectSpans(text): the brace spans found outside string literals, sorted by start |
| OutputParser.JsonObjectSpansWellFormed | agent/output_parser.py:251-273 | every span starts at a counted `{`, ends just after a counted `}` and lies inside the text; the spans are sorted by start |
| OutputParser.BackslashNeutralisesNext | agent/output_parser.py:258-263 | an unescaped backslash sets the escape flag, and the next character neither toggles the string state nor stays escaped |
| OutputParser.QuotedBraceIgnored | agent/output_parser.py:265-266 | a brace inside a string literal pushes and pops nothing |
| OutputParser.UnmatchedCloseIgnored | agent/output_parser.py:269 | a `}` with an empty stack records no span |
| OutputParser.StartLeTotalPreorder | agent/output_parser.py:273 | the sort key (span start) is a total preorder, so the sort yields a sorted permutation |
| OutputParser.ExtractWithBracketMatching | agent/output_parser.py:233-239 | the candidates are the stripped snippets of the balanced spans that mention `tool_name`, `"tool"` or `'tool'`, in span order |
| OutputParser.CollectSnippets | agent/output_parser.py:235-238 | the loop over the spans collects exactly the transformed mentioning snippets, in span order |
| OutputParser.ExtractWithRepair | agent/output_parser.py:241-249 | the repaired mentioning snippets; when there are none and the text mentions `tool_name` or `"tool"`, the repaired whole text; blank candidates dropped |
| OutputParser.NonBlank | agent/output_parser.py:249 | no kept candidate is blank, and none is added |
| OutputParser.ParseJson | agent/output_parser.py:101-112 | a text that loads gives its value; otherwise, when repair changes the text and the repair loads, the repaired value; "invalid JSON" when repair changes nothing; "invalid JSON after repair" when the repair does not load either |
| OutputParser.FirstPresent | agent/output_parser.py:122-125 | no value exactly when none of the alternative keys is present |
| OutputParser.CopyAliasEffect | agent/output_parser.py:121-131 | the key keeps its own value when present, else takes the first present alternative's; every other key is untouched |
| OutputParser.CopyTwoAliases | agent/output_parser.py:122-125 | with two alternatives the first present one wins |
| OutputParser.NormalizePayloadName | agent/output_parser.py:114-142 | a non-object is rejected with "JSON payload is not an object"; an accepted payload has a non-empty, stripped name |
| OutputParser.NormalizePayloadSources | agent/output_parser.py:119-142 | the result is decided by the aliased name and args: "Missing tool_name" for a blank name, else the aliased dict args (or {}) normalised for that name |
| OutputParser.NameCopied | agent/output_parser.py:121-133 | copying the args alias leaves the copied name where `payload.get("tool_name", "")` reads it |
| OutputParser.ArgsCopied | agent/output_parser.py:127-139 | after both alias copies, `tool_args` holds the own value or the first present of `args`, `arguments` |
| OutputParser.NormalizeArgsEffect | agent/output_parser.py:205-220 | the per-tool alias copies (`text` for response/task_done and memory, `code` for code_execution), an existing key never overwritten, every other key unchanged, other tools untouched |
| OutputParser.StripIdempotent | agent/output_parser.py:133 | stripping twice is stripping once, so the stored name is already stripped |
| OutputParser.ParsePayload | agent/output_parser.py:80-99 | equals ParsedTools: the load error, or the normalised payloads |
| OutputParser.ParseContents | agent/output_parser.py:86-98 | a list is normalised item by item, anything else as a single payload |
| OutputParser.NormalizeSingle | agent/output_parser.py:93-98 | a single payload gives one parsed tool or its error |
| OutputParser.NormalizeList | agent/output_parser.py:86-92 | the loop equals NormalizeItems: items in order, stopping at the first error |
| OutputParser.NormalizeItemsSnoc | agent/output_parser.py:87-92 | one more item appends its parsed tool, or fails |
| OutputParser.FailureSticks | agent/output_parser.py:91-92 | once a prefix fails, the whole list fails with that error |
| OutputParser.BadItemDiscardsPayload | agent/output_parser.py:87-92 | one bad item anywhere in a list fails the whole payload |
| OutputParser.Coerce | agent/output_parser.py:179-203 | a value accepted as ok is an instance of one of the expected types |
| OutputParser.CoerceCases | agent/output_parser.py:185-203 | the branches in source order: None allowed, str(value) for a non-string where str is expected, int of an all-digit string, the value itself when already an instance, and rejection otherwise |
| OutputParser.RegisteredMap | agent/output_parser.py:47 | the keys are exactly the lowered registered names, each mapped to a registered name with that lowering |
| OutputParser.RegisteredMapLast | agent/output_parser.py:47 | each lowered name maps to the last registered spelling with that lowering, as the dict comprehension overwrites earlier ones |
| OutputParser.MissingArgs | agent/output_parser.py:161-164 | empty exactly when every required key is present with a value other than None and "" |
| OutputParser.CoerceAllHasKey | agent/output_parser.py:168-175 | coercion neither adds nor removes argument keys |
| OutputParser.CoerceAllOther | agent/output_parser.py:168-175 | a key outside the schema keeps its value |
| OutputParser.CoerceAllTyped | agent/output_parser.py:168-175 | every schema key present in the args ends an instance of its expected types |
| OutputParser.CoerceAllSound | agent/output_parser.py:168-177 | the coerced args keep the keys and type-check every schema key present |
| OutputParser.ValidateToolCall | agent/output_parser.py:144-177 | equals Validation: unknown tool, missing required args, invalid type, or the canonical call with coerced args |
| OutputParser.ValidationSound | agent/output_parser.py:150-177 | an accepted call has a registered canonical name, no missing required argument and well-typed schema arguments |
| OutputParser.ValidationByLowerName | agent/output_parser.py:150-155 | an unknown lowered name gives "Unknown tool '<name>'"; two names equal after strip and lower validate alike |
| OutputParser.ValidatedNameRegistered | agent/output_parser.py:155 | the canonical name of an accepted call is one of the registered names |
| OutputParser.ValidCallsOf | agent/output_parser.py:68-73 | the loop keeps exactly the validated calls of the parsed tools, in order |
| OutputParser.AcceptedMeans | agent/output_parser.py:69-71 | a call is kept for a parsed tool exactly when validation returns it |
| OutputParser.ValidCallsValidated | agent/output_parser.py:68-71 | every kept call is the validation of some parsed tool |
| OutputParser.CallsFromPayloads | agent/output_parser.py:63-73 | the loop over one strategy's payloads collects exactly CallsOfPayloads |
| OutputParser.CallsFromPayload | agent/output_parser.py:64-73 | a payload that fails to parse adds nothing; otherwise its validated calls |
| OutputParser.CallsOfPayloadsValidated | agent/output_parser.py:63-73 | every collected call is the validation of some parsed tool |
| OutputParser.RunStrategy | agent/output_parser.py:59-73 | running strategy s gives StrategyCalls(s) |
| OutputParser.ExtractToolCalls | agent/output_parser.py:40-78 | equals ExtractedCalls: the calls of the first strategy that yields any, in strategy order code fence, raw JSON, bracket match, repair |
| OutputParser.FirstNonEmpty | agent/output_parser.py:59-78 | the result is [] or one of the strategies' results |
| OutputParser.FirstNonEmptyPicks | agent/output_parser.py:74-75 | the first non-empty entry is returned |
| OutputParser.FirstNonEmptyOfEmpties | agent/output_parser.py:77-78 | all empty gives [] |
| OutputParser.FirstYieldingStrategyWins | agent/output_parser.py:59-75 | when strategy s is the first to yield calls, exactly its calls are returned |
| OutputParser.NoStrategyYieldsNothing | agent/output_parser.py:77-78 | when no strategy yields a call, the result is [] |
| OutputParser.StrategyCallsValidated | agent/output_parser.py:63-73 | each strategy returns only calls validated against the registered tools |
| OutputParser.ExtractedCallsValid | agent/output_parser.py:40-78 | every extracted call has a registered name and type-checked arguments |
| OutputParser.ExtractToolCall | agent/output_parser.py:30-38 | the first extracted call, or None when there is none |
| Models.ModelAvailableMeans | agent/models.py:82-87 | available exactly when some available name equals the required name or is it followed by ":" and a tag |
| Models.ModelAvailableExamples | agent/models.py:82-87 | "llama3.2" is found as "llama3.2:latest"; "codellama" and "llama3" (a prefix without ":") are not |
| Models.NonEmptyNames | agent/models.py:72 | the available list without empty names, nothing else removed |
| Models.FilterMissingModels | agent/models.py:67-79 | the loop returns exactly MissingModels: the non-empty required names that are not available, in input order |
| Models.MissingModelsIff | agent/models.py:73-79 | a name is reported missing exactly when it is required, non-empty and unavailable |
| Models.AvailableIgnoresEmpty | agent/models.py:72 | dropping empty available names changes no answer for a non-empty required name |
| Models.MissingModelsOrdered | agent/models.py:73-79 | at most as many missing names as required ones, none empty |
| Models.Backoff | agent/models.py:229-239 | the delays 1, 2, 4, … doubling from 1 |
| Models.RetryFromShape | agent/models.py:231-241 | from any attempt, the calls made, the sleeps and the outcome have the retry shape |
| Models.ShapeBefore | agent/models.py:231-239 | a transport failure before the attempt extends the shape back by one attempt |
| Models.RetriedShape | agent/models.py:227-241 | at most max_retries calls; sleeps = one fewer than the calls; the returned value or raised error is the last call's; exhaustion only after max_retries transport failures; no call when max_retries < 1 |
| Models.RetryFromFirstSuccess | agent/models.py:231-233 | the first successful call's value is returned after exactly that many calls |
| Models.RetriedFirstSuccess | agent/models.py:231-239 | k failures then a success return the success after k + 1 calls and sleeps 1, 2, …, 2^(k-1) |
| Models.RetriedExhausted | agent/models.py:236-241 | max_retries transport failures raise the connection error naming the last error, after max_retries - 1 sleeps |
| Models.RetryFromExhausted | agent/models.py:236-241 | when every remaining attempt fails, the connection error is raised |
| Models.StreamFromNoDone | agent/models.py:132-141 | a stream without a done record yields every content in order and does not finish |
| Models.StreamFromDone | agent/models.py:139-143 | the stream yields the contents up to and including the first done record, then finishes |
| Models.ReadStream | agent/models.py:132-143 | the reading loop equals StreamFrom: contents in order, stopping at the first done record |
| Models.ChatNotRetried | agent/models.py:121-129 | a 404 or another HTTP failure ends the chat after one request with no sleep |
| Models.ChatErrorAfterChunk | agent/models.py:114-154 | on any attempt, a transport error after a chunk of that request was received raises at once: one more request, no more sleeps, the chunks kept, and the connection error naming it |
| Models.DroppedAfterChunks | agent/models.py:131-154 | a stream that yields chunks and then drops before done is caught with those chunks and the transport error |
| Models.ChatFromBounds | agent/models.py:111-156 | the requests made never exceed max(max_retries, 1); sleeps are the backoff of one fewer; yielded chunks only grow |
| Models.ChatRunBounds | agent/models.py:111-156 | a whole chat makes between 1 and max(max_retries, 1) requests with the backoff between them |
| Models.ChatAsWrittenRepeats | agent/models.py:113-143 | as written, a stream that ends without a done record re-sends the request: with fuel n the chat has yielded "Hello" n times over n requests and is still looping |
| Models.ChatCorrectedStops | agent/models.py:131-143 | when a stream ending without done returns instead, the same replies give one "Hello", one request and no sleep |
| Models.HelloBody | agent/models.py:139-141 | the reply in the finding's example yields the one chunk "Hello" and has no done record |
| Models.OllamaClient.constructor | agent/models.py:17-27 | the base URL is stored with trailing "/" removed |
| Models.OllamaClient.WithRetry | agent/models.py:227-241 | the loop equals Retried |
| Models.OllamaClient.Chat | agent/models.py:89-156 | the retry loop equals ChatRunOf, the corrected chat |
| ModelRouter.DefaultModel | agent/model_router.py:23-24 | `routes["default"]` when it is set and non-empty, else the chat model |
| ModelRouter.LastUserIndexSpec | agent/model_router.py:100-104 | the index found is a user message with no user message after it; none is found only when no message is a user message |
| ModelRouter.LastUserMessageOf | agent/model_router.py:99-102 | the text read is the content of the last user message |
| ModelRouter.LastUserIndexAt | agent/model_router.py:100-102 | the scan from the end stops at the last user message |
| ModelRouter.NoUserMessage | agent/model_router.py:99-103 | without a user message the text read is "" |
| ModelRouter.RouteFromTool | agent/model_router.py:68-72 | a route exactly when the last tool name is non-empty and has an affinity, and then that affinity |
| ModelRouter.RouteFromMessages | agent/model_router.py:74-83 | "default" exactly without user text; "coding" exactly for code-like text; "summarization" exactly for summary-like text that is not code-like; else "reasoning" |
| ModelRouter.RouteKey | agent/model_router.py:54-56 | the tool affinity route takes precedence over the message route |
| ModelRouter.ModelForRoute | agent/model_router.py:85-89 | a non-empty configured route gives its model, anything else the default model |
| ModelRouter.IsAvailableMeans | agent/model_router.py:91-97 | an empty name is unavailable, an unknown model list makes any name available, otherwise availability is the tag-aware check |
| ModelRouter.Chosen | agent/model_router.py:58-66 | the routed model if available, else the default model if available; the result is available or the chat model |
| ModelRouter.ChosenInstalledOrChat | agent/model_router.py:58-66 | against a known list the chosen model is installed or is the chat model |
| ModelRouter.ListedNames | agent/model_router.py:40 | the listed models' non-empty names, nothing else |
| ModelRouter.Router.constructor | agent/model_router.py:17-24 | no known model list, and the default model fixed from the configuration |
| ModelRouter.Router.SetAvailableModels | agent/model_router.py:45-47 | the model list becomes the given names without empty ones |
| ModelRouter.Router.RefreshModels | agent/model_router.py:34-43 | disabled changes nothing; a failing listing forgets the list; otherwise the listed non-empty names |
| ModelRouter.Router.EnsureModelsLoaded | agent/model_router.py:26-32 | refreshes only when enabled and no list is known yet |
| ModelRouter.Router.SelectModel | agent/model_router.py:49-66 | disabled gives the chat model; otherwise the fallback chain applied to the route's model |
| McpBridge.MapJsonType | tools/mcp_bridge.py:157-166 | the seven JSON type names map to their Python types; an absent, falsy or unknown type gives str; an unhashable non-empty list or object raises |
| McpBridge.PyList | tools/mcp_bridge.py:147-154 | `list(x)` of a list is the list; of None, a bool or a number it raises |
| McpBridge.PropertyTypes | tools/mcp_bridge.py:148-153 | only property names of the schema get a type |
| McpBridge.PropertyTypesFails | tools/mcp_bridge.py:145-153 | the mapping fails exactly when some dict property spec has a type that cannot be mapped |
| McpBridge.PropertyTypesKeys | tools/mcp_bridge.py:145-153 | on success, a name gets a type exactly when one of its specs is a dict; non-dict specs are skipped |
| McpBridge.PropertyTypesValues | tools/mcp_bridge.py:145-153 | on success, a name's type is the mapping of the "type" of its last dict spec |
| McpBridge.SchemaToArgs | tools/mcp_bridge.py:145-154 | a non-dict schema gives ({}, list(required or [])); an explicit non-empty required list is returned as the required list |
| McpBridge.ExplicitRequiredWins | tools/mcp_bridge.py:154 | a non-empty explicit `required` wins over the schema's "required", for every schema |
| McpBridge.SchemaRequiredUsed | tools/mcp_bridge.py:154 | without an explicit list the schema's non-empty "required" is used, and none gives [] |
| McpBridge.CandidateInjective | tools/mcp_bridge.py:140 | different suffixes give different candidate names |
| McpBridge.TriedSize | tools/mcp_bridge.py:138-143 | the candidates tried before idx are idx - 2 distinct names |
| McpBridge.TakenBound | tools/mcp_bridge.py:138-143 | candidates all taken bound idx by the number of existing names, so the loop ends |
| McpBridge.SmallestFree | tools/mcp_bridge.py:138-143 | the smallest suffix from idx whose candidate is free |
| McpBridge.UniqueName | tools/mcp_bridge.py:132-143 | never an existing name; the original when free, else "server.name" when free, else "server.name.N" for the smallest free N ≥ 2 |
| McpBridge.UniqueToolName | tools/mcp_bridge.py:132-143 | the while loop returns UniqueName |
| McpBridge.SecondServerPrefixed | tools/mcp_bridge.py:132-137 | a second server's "read_file" is registered as "beta.read_file" |
| McpBridge.SendUrl | tools/mcp_bridge.py:343-350 | an explicit send_url wins; a "/sse" suffix becomes "/message"; otherwise trailing "/" stripped and "/message" appended; a missing url is an error naming the server |
| McpBridge.NamedSpecs | tools/mcp_bridge.py:229-241 | dict entries only, with non-empty names, in order |
| McpBridge.ListTools | tools/mcp_bridge.py:226-241 | a non-dict response gives no tools; every tool returned has a name |
| McpBridge.CallToolResult | tools/mcp_bridge.py:248-250 | the "content" of a dict response that has one, otherwise the response unchanged |
| McpBridge.McpClient.constructor | tools/mcp_bridge.py:206-210 | not initialised and request id 0 |
| McpBridge.McpClient.NextId | tools/mcp_bridge.py:261-263 | the counter is incremented and the new value returned |
| McpBridge.McpClient.Initialize | tools/mcp_bridge.py:212-292 | an initialised client does nothing; otherwise one id is used unless the request fails before the id is taken, and the client is initialised only when the request and notification complete |
| McpBridge.InitializeTwice | tools/mcp_bridge.py:212-214 | a second initialize after a successful one sends no request |
| McpBridge.NextIds | tools/mcp_bridge.py:261-263 | two requests in a row get consecutive ids |
| McpBridge.BuildTool | tools/mcp_bridge.py:107-130 | the built tool carries the unique name, the server name and the spec's own name |
| McpBridge.AddSpecsKeeps | tools/mcp_bridge.py:52-108 | adding a server's tools keeps every tool already registered and the tool map consistent |
| McpBridge.DiscoverKeeps | tools/mcp_bridge.py:47-58 | discovery keeps earlier servers' tools and the tool map consistent |
| McpBridge.FailingServerSkipped | tools/mcp_bridge.py:48-57 | a server whose listing fails contributes nothing, as if it were not configured |
| McpBridge.Bridge.constructor | tools/mcp_bridge.py:30-39 | no tools mapped yet |
| McpBridge.Bridge.DiscoverTools | tools/mcp_bridge.py:41-58 | disabled gives {} and changes nothing; otherwise the tools of DiscoverFrom over the servers in order |
| McpBridge.Bridge.AddServerTools | tools/mcp_bridge.py:52-55 | the loop over one server's specs equals AddSpecs |
| McpBridge.Bridge.FindServer | tools/mcp_bridge.py:174-178 | the first configured server with the name, or none |
| McpBridge.Bridge.CallTool | tools/mcp_bridge.py:93-100 | an unknown server raises "MCP server '<name>' not configured"; otherwise the unwrapped response or its error |
| McpBridge.FirstNamed | tools/mcp_bridge.py:175-178 | the first index from `from` whose server has the name |
| McpBridge.ExecuteMessage | tools/mcp_bridge.py:118-172 | an error becomes "[MCP tool '<name>' error: ...]"; a dict or list result is the JSON dump; a string result is the message itself |
| ChatRoutes.Inserted | web/routes/chat.py:42-46 | assigning a session keeps the listing order: an existing id stays in place, a new one goes last |
| ChatRoutes.Removed | web/routes/chat.py:165 | `del sessions[id]` removes exactly that id |
| ChatRoutes.RemovedDistinct | web/routes/chat.py:165 | deleting keeps the session ids distinct |
| ChatRoutes.Send | web/routes/chat.py:17-54 | every outcome keeps the in-memory session table consistent |
| ChatRoutes.SendOutcomes | web/routes/chat.py:20-54 | a rejection changes nothing; a blank message is 400; 409 exactly when an existing or reused session is running; 503 exactly when a new session is needed and preflight fails; 404 exactly when a stored id is missing from the store; an accepted send leaves the session running in the table |
| ChatRoutes.SendWhileRunning | web/routes/chat.py:48-49 | a second message to a session whose monologue is still running is rejected with 409 |
| ChatRoutes.LiveListing | web/routes/chat.py:123-137 | one entry per live session, in order, not persisted |
| ChatRoutes.PersistedListing | web/routes/chat.py:139-155 | only persisted sessions that are not live, marked persisted |
| ChatRoutes.PersistedListingIff | web/routes/chat.py:142-145 | a stored session is listed exactly when it is not live |
| ChatRoutes.PersistedListingDistinct | web/routes/chat.py:142-155 | distinct stored sessions give a distinct listing, each entry coming from a stored session |
| ChatRoutes.ListingDistinct | web/routes/chat.py:119-157 | the whole listing never names a session twice |
| ChatRoutes.FirstStop | web/routes/chat.py:67-77 | the first poll that ends the stream, and none before it |
| ChatRoutes.Generate | web/routes/chat.py:66-77 | events and keepalives are emitted one per poll up to and including the first done/error event or the first timeout while the session is idle, and the stream ends exactly when there is one |
| ChatRoutes.UrlIndex | web/routes/chat.py:216 | the position of a base URL in the map, absent exactly when the URL is not there |
| ChatRoutes.AddModel | web/routes/chat.py:215-218 | a new URL is appended with the model; a known URL gains the model only when it lacks it; other entries unchanged |
| ChatRoutes.AddModelKeepsShape | web/routes/chat.py:215-218 | the map keeps distinct URLs and distinct models per URL, and afterwards holds the model under its URL |
| ChatRoutes.CheckUrl | web/routes/chat.py:231-245 | an unhealthy server gives the connect message; a listing failure gives its text; otherwise it passes exactly when every required model is available |
| ChatRoutes.MissingNoneIff | web/routes/chat.py:242-243 | no missing models exactly when every non-empty required model is available |
| ChatRoutes.PreflightPassesIff | web/routes/chat.py:223-247 | preflight passes exactly when every base URL passes its check |
| ChatRoutes.CheckAll | web/routes/chat.py:223-247 | the loop returns the first URL's error, or (True, "") |
| ChatRoutes.Preflight | web/routes/chat.py:212-247 | the chat model, then the utility model, are grouped by URL and checked in that order |
| ChatRoutes.SameUrlGrouped | web/routes/chat.py:220-221 | chat and utility models on one URL are checked together, once if they are the same model |
| ChatRoutes.Server.constructor | web/routes/chat.py:250-257 | no sessions; the store present exactly when persistence is on |
| ChatRoutes.Server.SendMessage | web/routes/chat.py:17-54 | the reply and the new session table are those of Send, with the store answering the lookup; a session it opens with a store runs `ensure_session` (the `SessionState` of web/app.py:57 builds an `AgentContext`, agent/agent_context.py:36-41), so the store holds the ensured row, pruned to `max_sessions` with its messages and tool calls; any other send leaves the store unchanged |
| ChatRoutes.Server.ListSessions | web/routes/chat.py:119-157 | live sessions in order, then persisted ones not live, only when a store is configured |
| ChatRoutes.Server.DeleteSession | web/routes/chat.py:161-174 | the session leaves memory and the store with its messages and tool calls; "deleted" when it was in either, otherwise 404 |
| ChatRoutes.Server.RenameSession | web/routes/chat.py:177-201 | a blank title is 400 and changes nothing; otherwise the live title and update time are set, the stored title is the truncated title, and the reply is "renamed" when the session was live or stored, otherwise 404 |
| KnowledgeImport.Window | memory/knowledge_import.py:131 | the slice `text[i:i+500]`, never longer than the chunk size |
| KnowledgeImport.Piece | memory/knowledge_import.py:131-133 | a window contributes its stripped text exactly when it is not blank |
| KnowledgeImport.Chunk | memory/knowledge_import.py:126-134 | the loop returns ChunkText |
| KnowledgeImport.ChunkWindows | memory/knowledge_import.py:128-133 | the `for i in range(0, len(text), 450)` loop collects the non-blank stripped windows |
| KnowledgeImport.PieceShaped | memory/knowledge_import.py:131-133 | every piece is non-empty, stripped at both ends and at most 500 characters |
| KnowledgeImport.ChunksFromShaped | memory/knowledge_import.py:130-133 | every chunk is non-empty, stripped and at most 500 characters |
| KnowledgeImport.ChunksFromCount | memory/knowledge_import.py:129-130 | there are at most ceil(len/450) chunks |
| KnowledgeImport.ChunksFromReach | memory/knowledge_import.py:130-133 | a non-space character at or after the start gives at least one chunk |
| KnowledgeImport.ChunksFromBlank | memory/knowledge_import.py:132 | blank text gives no chunks |
| KnowledgeImport.FallbackUnused | memory/knowledge_import.py:134 | the `[text.strip()]` fallback never changes the result: the windows alone are the answer |
| KnowledgeImport.ChunkTextProperties | memory/knowledge_import.py:126-134 | chunks are non-empty, stripped and at most 500 characters; at most ceil(len/450) of them; none exactly when the text is blank |
| KnowledgeImport.Extension | memory/knowledge_import.py:53 | `splitext(...)[1]`: empty or a dot-started suffix of the file name |
| KnowledgeImport.LastDot | memory/knowledge_import.py:53 | the last dot of the name, or none |
| KnowledgeImport.Saves | memory/knowledge_import.py:68-78 | chunk j is saved with its content, the file path, index j, the file name and the subdir |
| KnowledgeImport.SavedCount | memory/knowledge_import.py:68-78 | a save failure at chunk k leaves k chunks saved |
| KnowledgeImport.ImportFileProperties | memory/knowledge_import.py:52-83 | an unsupported file changes nothing; an unchanged hash only counts a skip; every supported file counts exactly once as imported, skipped or error; an import records the hash, an error keeps the state and appends "<filename>: <error>"; saved chunks are only appended |
| KnowledgeImport.ImportAllCounts | memory/knowledge_import.py:49-86 | imported + skipped + errors equals the number of supported files |
| KnowledgeImport.ReimportSkips | memory/knowledge_import.py:60-80 | importing a file again right after it was imported only counts a skip |
| KnowledgeImport.ImportFileState | memory/knowledge_import.py:80 | only a supported file's own path enters the state |
| KnowledgeImport.StateFromImports | memory/knowledge_import.py:51-80 | every path in the final state was there before or is a supported file of the walk |
| KnowledgeImport.KnowledgeImporter.constructor | memory/knowledge_import.py:18-23 | starts from the loaded state with nothing saved |
| KnowledgeImport.KnowledgeImporter.SaveChunks | memory/knowledge_import.py:68-78 | saves the chunks before the failing one, raising exactly when a chunk's save fails |
| KnowledgeImport.KnowledgeImporter.ImportOne | memory/knowledge_import.py:53-83 | one file's effect on state, saved chunks and stats is ImportFile |
| KnowledgeImport.KnowledgeImporter.SaveFile | memory/knowledge_import.py:64-83 | the parsed text's chunks are saved; a failure records "<filename>: <error>" and keeps the state, success records the hash and counts an import |
| KnowledgeImport.KnowledgeImporter.ImportFiles | memory/knowledge_import.py:49-86 | the walk over the files from zeroed stats is ImportAll |
| MemoryManager.ListNamespaces | memory/memory_manager.py:357-359 | never empty: the configured namespaces, or ["default"] when none are configured |
| MemoryManager.ResolveNamespace | memory/memory_manager.py:349-355 | an explicit non-empty namespace wins; else a subdir other than "" and "default"; else the first configured namespace, "default" when none |
| MemoryManager.ResolveStable | memory/memory_manager.py:349-351 | passing a resolved namespace back in resolves to itself, whatever the subdir |
| MemoryManager.Bump | memory/memory_manager.py:364-365 | one increment adds at most one new area |
| MemoryManager.BumpCounts | memory/memory_manager.py:364-365 | one increment raises the total and that area's count by one, keeps areas distinct and adds no other key |
| MemoryManager.CountsOfProperties | memory/memory_manager.py:361-366 | the counts sum to the number of entries, each area's count is its number of occurrences, and areas are distinct |
| MemoryManager.UnknownArea | memory/memory_manager.py:364 | entries without an area all count as "unknown" |
| MemoryManager.CountAreas | memory/memory_manager.py:361-366 | the loop returns the per-area counts |
| MemoryManager.Prefix | memory/memory_manager.py:507 | `text[:n]`: exactly n characters, or the whole text when shorter |
| MemoryManager.ThroughSep | memory/memory_manager.py:504-506 | the prefix through the first occurrence of the separator, when it is before index 200 |
| MemoryManager.FirstSentence | memory/memory_manager.py:502-507 | "." first, then "!", then "?" (by separator, not by position), each only before index 200; else the first 160 characters; always a prefix of at most 200 characters, non-empty for non-empty text |
| MemoryManager.FirstSentenceByOrder | memory/memory_manager.py:503-506 | "Why? Because." yields the whole text, because "." is tried before "?" |
| MemoryManager.SummaryLinesEmpty | memory/memory_manager.py:490-499 | no summary lines exactly when every content is blank |
| MemoryManager.SummaryLinesCount | memory/memory_manager.py:491-498 | one line per non-blank content |
| MemoryManager.NonBlankCountZero | memory/memory_manager.py:491-494 | no non-blank content exactly when all are blank |
| MemoryManager.SummaryLinesStep | memory/memory_manager.py:491-498 | one more content appends its "- " line, or nothing when it is blank |
| MemoryManager.SummarizeMeans | memory/memory_manager.py:489-499 | the summary is "" exactly when every content is blank, and otherwise starts with "Compacted memory summary:\n" |
| MemoryManager.SummarizeMemories | memory/memory_manager.py:489-499 | the loop returns Summarize |
| MemoryManager.BuildSummaryLines | memory/memory_manager.py:490-498 | the loop builds the lines of the non-blank contents, in order |
| MemoryManager.SummaryLinesAt | memory/memory_manager.py:491-498 | the lines of a prefix one longer gain the new content's line |
| MemoryManager.Candidates | memory/memory_manager.py:442-451 | candidates are in index order, not knowledge, not compacted, with a parseable creation time, and carry their own entry |
| MemoryManager.ByTimeTotal | memory/memory_manager.py:456 | ordering by creation time is a total preorder |
| MemoryManager.BatchSize | memory/memory_manager.py:457 | `max(2, min(50, candidates, count - threshold + 1))`: at least 2, and at most 50 and the candidate count when there are two candidates |
| MemoryManager.CompactBatchWhen | memory/memory_manager.py:436-454 | a batch is selected exactly when compaction is on, the count is above the threshold, and there are at least two candidates |
| MemoryManager.CompactBatchOldest | memory/memory_manager.py:456-458 | the batch is the first BatchSize candidates by time: a permutation's prefix, none of the rest older |
| MemoryManager.OldestPrefix | memory/memory_manager.py:456-458 | the first n candidates by time are candidates and no later one is older |
| MemoryManager.CompactedIds | memory/memory_manager.py:463 | the batch's truthy memory ids, each once |
| MemoryManager.BatchContents | memory/memory_manager.py:459 | one content per selected entry |
| MemoryManager.MaybeCompact | memory/memory_manager.py:435-486 | no batch or an empty summary leaves the store unchanged; otherwise the summary entry and its vector are appended and the compacted ids are deleted from both the metadata and the vectors |
| MemoryManager.InAreaItems | memory/memory_manager.py:302-305 | only entries of the requested area, taken from the metadata |
| MemoryManager.MemoriesListedProperties | memory/memory_manager.py:291-313 | at most max(limit, 0) entries, all from the metadata and in the area, newest first |
| MemoryManager.ListMemories | memory/memory_manager.py:291-313 | the filter, sort and slice return MemoriesListed |
| MemoryManager.FilterArea | memory/memory_manager.py:302-305 | the loop keeps the entries in the area, in order |
| MemoryManager.BuildBm25Documents | memory/memory_manager.py:556-564 | one document per metadata entry, in order: title, headers and content joined by spaces and stripped |
| MemoryManager.DocumentEmptyIff | memory/memory_manager.py:558-563 | an entry's document is empty exactly when its title, header text and content are all blank |
| FaissStore.SearchFrom | memory/faiss_store.py:71-87 | results keep their order; each new one is a real metadata entry in the area, scoring at least the threshold, carrying the index flag asked for; the loop stops at k |
| FaissStore.KeepFrom | memory/faiss_store.py:94 | the increasing indices whose entries the filter rejects, all of them |
| FaissStore.Select | memory/faiss_store.py:107-110 | the entries at the kept indices, in order |
| FaissStore.IncreasingBelow | memory/faiss_store.py:95 | keeping as many indices as there are entries means keeping every index |
| FaissStore.DeletedExactly | memory/faiss_store.py:94-114 | deletion keeps exactly the entries the filter rejects, in their original order |
| FaissStore.DeleteNothing | memory/faiss_store.py:95-96 | a filter matching nothing leaves the metadata unchanged |
| FaissStore.DeleteEverything | memory/faiss_store.py:98-103 | a filter matching everything leaves the metadata empty |
| FaissStore.BulkUpdated | memory/faiss_store.py:126-129 | the bulk update keeps the number of entries |
| FaissStore.BulkUntouched | memory/faiss_store.py:126-129 | an entry whose index is not listed is unchanged |
| FaissStore.BulkIgnoresOutOfRange | memory/faiss_store.py:127 | an out-of-range index changes nothing |
| FaissStore.FAISSStore.Count | memory/faiss_store.py:133-135 | the number of vectors, equal to the number of metadata entries in a consistent store |
| FaissStore.FAISSStore.constructor | memory/faiss_store.py:14-36 | the loaded or empty index and metadata, consistent when their lengths agree |
| FaissStore.FAISSStore.Add | memory/faiss_store.py:38-49 | vectors and metadata are appended at the end, in order; equal-length additions keep the store consistent |
| FaissStore.FAISSStore.Search | memory/faiss_store.py:51-87 | an empty index gives no results; otherwise the filtered hits of SearchFrom |
| FaissStore.FAISSStore.Delete | memory/faiss_store.py:89-115 | keeps exactly the unmatched entries and their vectors, in order; nothing matched changes nothing; everything matched empties both; a kept index past the vectors raises and changes nothing, which a consistent store never does |
| FaissStore.FAISSStore.Clear | memory/faiss_store.py:117-121 | vectors and metadata are empty |
| FaissStore.FAISSStore.UpdateMetadataBulk | memory/faiss_store.py:123-131 | vectors unchanged and the metadata bulk-updated at in-range indices only |
| FaissStore.SearchBound | memory/faiss_store.py:84-85 | a search returns at most k results |
| TemplateEngine.Placeholder | prompts/template_engine.py:30-55 | the placeholder is the key wrapped in "{{" and "}}" |
| TemplateEngine.RenderString | prompts/template_engine.py:52-56 | the loop replaces every variable's placeholder by str(value), in dict order |
| TemplateEngine.SubstituteNoBraces | prompts/template_engine.py:52-56 | a template without "{{" is returned unchanged |
| TemplateEngine.CloseFrom | prompts/template_engine.py:39 | the first "}" from a position, or the end |
| TemplateEngine.MatchInclude | prompts/template_engine.py:39 | a match of `\{\{include:([^}]+)\}\}` at a position: a non-empty name without "}" |
| TemplateEngine.IncludeMatches | prompts/template_engine.py:39 | "{{include:name}}" with a valid name matches as a whole, capturing the name |
| TemplateEngine.CloseAfter | prompts/template_engine.py:39 | the first "}" found is the one before which there is none |
| TemplateEngine.DepthExceeded | prompts/template_engine.py:36-37 | a depth above 10 raises the circular-reference error |
| TemplateEngine.ResolveFromPlain | prompts/template_engine.py:50 | text without a directive from a position is copied unchanged |
| TemplateEngine.ResolvePlain | prompts/template_engine.py:36-50 | a template without directives resolves to itself |
| TemplateEngine.MissingInclude | prompts/template_engine.py:42-45 | an include of an absent file becomes "[Missing template: name]", the name stripped |
| TemplateEngine.Directive | prompts/template_engine.py:41-48 | a directive is replaced by the included file resolved one level deeper, or the missing-template marker |
| TemplateEngine.WholeDirective | prompts/template_engine.py:41-50 | a text that is one directive resolves to its replacement alone |
| TemplateEngine.SelfIncludeFails | prompts/template_engine.py:36-48 | a file that includes itself fails with the depth error |
| TemplateEngine.Render | prompts/template_engine.py:16-32 | a missing template raises "Template not found: <path>"; otherwise includes are resolved, then variables substituted |
| TemplateEngine.IncludedVariablesFilled | prompts/template_engine.py:26-30 | the variables of an included file are filled in as if written in place |
| TemplateEngine.IncludeResolves | prompts/template_engine.py:41-48 | including a plain file yields its contents |
| TemplateEngine.ToolPrompt | prompts/template_engine.py:63-70 | the contents of "agent.tool.<name>.md" when it exists, else "" |
| MessageTrimmer.HalfTruncated | extensions/builtin/message_trimmer.py:16 | `int(max_ctx * 0.5)`: half the context, truncated toward zero |
| MessageTrimmer.Clip | extensions/builtin/message_trimmer.py:42-43 | contents up to 200 characters are kept; longer ones are cut to 200 plus "..." |
| MessageTrimmer.TrimWhen | extensions/builtin/message_trimmer.py:15-31 | the hook returns None exactly when the history after the system prompt fits the budget or has at most six messages; it raises IndexError exactly when the message list is empty and the budget is negative |
| MessageTrimmer.TrimmedShape | extensions/builtin/message_trimmer.py:27-56 | a trimmed result keeps the system prompt, then one system summary of the earlier messages, then the last six messages unchanged |
| MessageTrimmer.ShortenedShape | extensions/builtin/message_trimmer.py:27-54 | the shortened list is system prompt, summary, last six messages |
| MessageTrimmer.SummaryKeepsLastTen | extensions/builtin/message_trimmer.py:46-49 | the summary keeps the parts of the last ten earlier messages at most, in their order |
| MessageTrimmer.LastPartsSuffix | extensions/builtin/message_trimmer.py:48 | `summary_parts[-10:]` is the suffix of length min(10, n) |
| MessageTrimmer.OnBeforeLlmCall | extensions/builtin/message_trimmer.py:13-56 | the hook's result is TrimHistory |
| MessageTrimmer.Shorten | extensions/builtin/message_trimmer.py:27-54 | the summary loop and the reassembly give Shortened |
| MessageTrimmer.SummaryParts | extensions/builtin/message_trimmer.py:37-44 | one "[role]: content" part per earlier message, in order |
| ExtensionManager.CalledIndices | extensions/extension_manager.py:51-56 | exactly the enabled extensions that define `on_<hook>`, in order |
| ExtensionManager.DispatchedLast | extensions/extension_manager.py:43-64 | None exactly when no called hook returns a value; otherwise the value of the last hook that returned one |
| ExtensionManager.RaisingHookIgnored | extensions/extension_manager.py:57-62 | a hook that raises counts as one that returned None |
| ExtensionManager.Manager.constructor | extensions/extension_manager.py:12-14 | no extensions |
| ExtensionManager.Manager.Dispatch | extensions/extension_manager.py:43-64 | the loop returns Dispatched and calls exactly CalledIndices |
| ExtensionManager.Manager.DiscoverExtensions | extensions/extension_manager.py:16-41 | the discovered extensions are appended to the registered ones |
| ExtensionManager.FromClasses | extensions/extension_manager.py:35-39 | only enabled, named extension subclasses are registered |
| ExtensionManager.FromModule | extensions/extension_manager.py:33-41 | a module that fails to import registers nothing |
| ExtensionManager.FromFiles | extensions/extension_manager.py:26-41 | every registered extension is enabled and named |
| ExtensionManager.StrLeTotalPreorder | extensions/extension_manager.py:26 | `sorted` on file names orders by a total preorder |
| ExtensionManager.FromFilesSources | extensions/extension_manager.py:26-41 | every registered extension comes from a candidate ".py" file not starting with "_" |
| ExtensionManager.DiscoveredProperties | extensions/extension_manager.py:16-41 | a missing directory registers nothing; every extension is enabled, named and from a candidate file; files are visited sorted |
| ExtensionManager.LoadClasses | extensions/extension_manager.py:35-39 | the loop over a module's classes registers FromClasses |
| Telemetry.Recorder.constructor | agent/telemetry.py:71-89 | no metrics, no iterations, no final tool and no events |
| Telemetry.Recorder.RecordLlmCall | agent/telemetry.py:91-111 | when enabled the metric is appended and an "llm_call" event logged; when disabled nothing changes; the other metrics are kept |
| Telemetry.Recorder.RecordToolCall | agent/telemetry.py:113-135 | when enabled the metric is appended and a "tool_call" event logged; when disabled nothing changes; the other metrics are kept |
| Telemetry.Recorder.RecordIteration | agent/telemetry.py:137-148 | when enabled the metric is appended, the iteration count rises by one and a "loop_iteration" event is logged; when disabled nothing changes |
| Telemetry.Recorder.RecordMemoryOperation | agent/telemetry.py:150-172 | when enabled the metric is appended and a "memory_operation" event logged; when disabled nothing changes |
| Telemetry.Recorder.Finalize | agent/telemetry.py:174-179 | when enabled the final tool is set and a "session_summary" event logged; when disabled nothing changes |
| Telemetry.Recorder.Summary | agent/telemetry.py:181-192 | the summary reports the session id, iteration count, tool and LLM calls, memory operation count and final tool as recorded |
| Telemetry.RecordsEventsScenario | agent/telemetry.py:91-179 | one call of each recorder on an enabled session yields one iteration, one memory operation, the final tool, and an event of every kind |
| Telemetry.DisabledScenario | agent/telemetry.py:99-177 | a disabled session records nothing |
| CodeExecution.Collected | tools/code_execution.py:63-76 | the lines read before the first end of stream, marker line or timeout, none of them stopping; timed out exactly when a timeout stopped the reading |
| CodeExecution.Remove | tools/code_execution.py:82 | removing a prompt never lengthens the output |
| CodeExecution.RemovePrompts | tools/code_execution.py:81-82 | removing the four prompts never lengthens the output |
| CodeExecution.RunOutputBounds | tools/code_execution.py:78-89 | the reply is never empty and at most 50000 characters plus the truncation note; longer cleaned output is cut to 50000 plus the note, empty output is "[No output]", other output is returned unchanged |
| CodeExecution.MarkerEndsReading | tools/code_execution.py:69-74 | the marker line ends the reading: lines before it are collected, nothing after it |
| CodeExecution.PersistentSession.constructor | tools/code_execution.py:23-26 | no process yet, nothing started and nothing sent |
| CodeExecution.PersistentSession.Run | tools/code_execution.py:28-89 | a live process is reused; otherwise one is started, and an unknown runtime raises "Unknown runtime: <name>"; the code plus the runtime's sentinel command is sent and the reply is the cleaned output |
| CodeExecution.ReadBack | tools/code_execution.py:63-89 | the reading, cleaning and truncation return RunOutput |
| CodeExecution.RemoveAllPrompts | tools/code_execution.py:81-82 | the loop over the prompts returns RemovePrompts |
| CodeExecution.ReadOutput | tools/code_execution.py:63-76 | the read loop returns Collected |
| CodeExecution.CollectedAt | tools/code_execution.py:65-74 | a stopping read ends the collection; any other read is collected and reading goes on |
| CodeExecution.SessionTable.constructor | tools/code_execution.py:118 | no sessions |
| CodeExecution.SessionTable.SessionFor | tools/code_execution.py:118-122 | the runtime's existing session, or a fresh idle one added to the table |
| CodeExecution.SessionTable.Execute | tools/code_execution.py:105-127 | blank code is "[Error: No code provided]" and an unknown runtime its error, neither touching the sessions; otherwise the runtime's session, reused or created, runs the code and the reply is its output; other sessions are unchanged |
| CodeExecution.SessionTable.RunIn | tools/code_execution.py:118-125 | the runtime's session is reused or created, receives the code and sentinel, starts a process only when it had none alive, and other sessions are unchanged |
| MemoryTool.AreaFilter | tools/memory_tool.py:32-49 | no area filter exactly for "all" |
| MemoryTool.FormatResults | tools/memory_tool.py:36-44 | no results is "No relevant memories found."; otherwise the header and the result lines |
| MemoryTool.FormatLines | tools/memory_tool.py:38-43 | one "- [area] (score: s) content" line per result, in order |
| MemoryTool.ResultLinesSnoc | tools/memory_tool.py:39-43 | one more result appends its line |
| MemoryTool.NoManager | tools/memory_tool.py:17-19 | without a memory manager every action replies "[Memory system not initialized]" |
| MemoryTool.BlankTextNoCall | tools/memory_tool.py:21-48 | save, search and delete with blank text reply with an error and call no manager operation |
| MemoryTool.Aliases | tools/memory_tool.py:21-54 | "query" and "recall" act as "search", "remove" as "delete"; area "all" means no filter for search and delete, but is passed on to forget and save |
| MemoryTool.UnknownAction | tools/memory_tool.py:56-60 | any other action gets the unknown-action error naming it |
| MemoryTool.ExecuteDefaultAction | tools/memory_tool.py:12-14 | an omitted action searches, and omitted text is a blank query |
| MemoryTool.ExecuteDefaultArea | tools/memory_tool.py:12-15 | an omitted area saves to, and forgets, "main" |
| MemoryTool.SearchReplyShape | tools/memory_tool.py:36-44 | an empty search says so, and only then; otherwise the reply starts with "Memories found:\n" |
| CallSubordinate.MaxWitness | tools/call_subordinate.py:19 | a non-empty set of ids has a largest element |
| CallSubordinate.MaxKey | tools/call_subordinate.py:19 | `max(keys)`: an id that no other exceeds |
| CallSubordinate.NextId | tools/call_subordinate.py:19 | `max(keys, default=-1) + 1`: above every existing id, 0 for no agents, one past the largest |
| CallSubordinate.Execute | tools/call_subordinate.py:11-39 | a blank task is an error and creates no agent; otherwise a fresh agent with the next id is added beside the unchanged others and runs the task, the reply being "Subordinate Agent N result:\n..." or the failure message; it never ends the parent's loop |
| Auth.Header | web/auth.py:31-34 | a header lookup that ignores case: the value of a header of that name, or none when there is none |
| Auth.LowerCharSpace | web/auth.py:35-36 | only a space lower-cases to a space |
| Auth.BearerSpace | web/auth.py:35-36 | a bearer header has its first space at position 6 |
| Auth.BeforeRequest | web/auth.py:10-64 | disabled auth installs no check; enabled auth allows exactly the authorised requests and answers the rest with 401 "Unauthorized" |
| Auth.ApiKeyHeaderAuthorizes | web/auth.py:23-33 | an X-API-Key header, any case of name, holding the key authorises |
| Auth.BearerToken | web/auth.py:34-37 | with a Bearer header, any case, the key check passes exactly when the stripped token equals the key |
| Auth.OnlyAuthorization | web/auth.py:31-34 | an Authorization header is not an X-API-Key header, and is found under its own name |
| Auth.BearerFirstSpace | web/auth.py:35-36 | `split(" ", 1)[1]` of "bearer <token>" is the token |
| Auth.NoSpaceInBearer | web/auth.py:36 | a bearer prefix has no space before position 6 |
| Auth.FirstSpaceAt6 | web/auth.py:36 | the first space of such a header is at position 6 |
| Auth.NoKeyHeaders | web/auth.py:30-38 | a request without headers fails the key check |
| Auth.BasicAuthRefusals | web/auth.py:41-56 | a wrong user name, a hash the checker cannot read, and missing credentials are all refused |
| Auth.NothingConfigured | web/auth.py:22-64 | enabled auth with neither key nor hash refuses every request with the Basic challenge |
| Text.LStrip | agent/session_store.py:338 | `lstrip()`: a suffix, with only whitespace removed, not starting with whitespace |
| Text.RStrip | agent/session_store.py:343 | `rstrip()`: a prefix, with only whitespace removed, not ending with whitespace |
| Text.StripProperties | agent/output_parser.py:133 | `strip()` is empty exactly for blank text, starts and ends with non-whitespace, and is never longer |
| Text.RStripChar | agent/models.py:24 | `rstrip(c)`: a prefix followed only by c, not ending with c |
| Text.TakeWord | agent/agent.py:542 | the leading run of non-whitespace characters |
| Text.Words | agent/agent.py:542 | `split()`: every word is non-empty and has no whitespace |
| Text.WordsEmptyIffBlank | agent/agent.py:542 | `split()` is empty exactly for blank text |
| Text.JoinWordsIsCollapsed | agent/agent.py:546 | words joined by single spaces have no other whitespace, no doubled space and no space at either end |
| Text.CollapseShape | agent/agent.py:546 | `" ".join(s.split())` is collapsed, and empty exactly for blank text |
| Text.TakeWordOfJoin | agent/agent.py:546 | the first word of a joined text is the first word joined |
| Text.WordsOfJoin | agent/agent.py:546 | splitting words joined by spaces gives the words back |
| Text.CollapseIdempotent | agent/agent.py:546 | collapsing twice is collapsing once |
| Text.FindFrom | memory/memory_manager.py:504 | `find`: the first occurrence from a position, or -1 when there is none |
| Text.ContainsIff | agent/output_parser.py:246 | `sub in s` exactly when the substring occurs somewhere |
| Text.ReplaceAbsent | prompts/template_engine.py:30 | `replace` of an absent pattern changes nothing |
| Text.Lower | agent/output_parser.py:47 | `lower()` keeps the length and lower-cases each character |
| Text.StrLeTotal | extensions/extension_manager.py:26 | string order compares any two strings |
| Text.StrLeTransitive | extensions/extension_manager.py:26 | string order is transitive |
| Text.StrLeAntisymmetric | extensions/extension_manager.py:26 | string order is antisymmetric |
| Text.NatToString | agent/output_parser.py:189 | `str(n)` of a natural is digits without a leading zero |
| Text.ParseNatToString | agent/output_parser.py:193-194 | `int(str(n)) == n` |
| Text.NatToStringInjective | agent/output_parser.py:189 | different naturals print differently |
| JsonValues.Keys | agent/output_parser.py:207-220 | one key per entry, in order |
| JsonValues.Get | agent/output_parser.py:133 | `d.get(k)` is absent exactly when the key is missing |
| JsonValues.Put | agent/output_parser.py:215 | after `d[k] = v`, k maps to v |
| JsonValues.GetFound | agent/output_parser.py:133 | a present key's value is that of one of the entries |
| JsonValues.PutOther | agent/output_parser.py:215 | assigning one key leaves the others as they were |
| JsonValues.PutKeys | agent/output_parser.py:215 | assigning a present key keeps the key order; a new key goes last |
| JsonValues.PutDistinct | agent/output_parser.py:215 | assignment keeps the keys distinct |
| Sorting.Insert | memory/memory_manager.py:307-312 | insertion adds exactly one element |
| Sorting.SortBy | memory/memory_manager.py:307-312 | sorting is a permutation of its input |
| Sorting.SortByMember | memory/memory_manager.py:456 | sorting keeps exactly the same members |
| Sorting.InsertSorted | memory/memory_manager.py:456 | insertion into a sorted sequence keeps it sorted |
| Sorting.SortBySorted | memory/memory_manager.py:307-312 | the result is sorted for any total preorder |
| Sorting.InsertTies | memory/memory_manager.py:307-312 | among the elements tied with any x, an inserted element tied with x comes first and the others keep their order |
| Sorting.SortByStable | memory/memory_manager.py:307-312 | sorting is stable: elements equivalent under the ordering keep their input order |

## Left out

- Text.Lower: `LowerChar` lower-cases ASCII letters only, where Python's `str.lower` is Unicode. This affects the case-insensitive tool-name lookup (OutputParser.RegisteredMap, OutputParser.ValidationByLowerName), the header lookup and bearer prefix (Auth.Header, Auth.BearerToken), and the extension test (KnowledgeImport.ImportFileProperties). Non-ASCII case pairs compare as different.
- OutputParser.Coerce: `IsDigit` accepts "0"-"9" only. Python's `str.isdigit` also accepts other Unicode digits: "٣" with int expected coerces to 3 in Python and is rejected here. "²" passes `isdigit`, then `int()` raises, so Python rejects it; here it is accepted as a string.
- OutputParser.Coerce: float coercion is an oracle, `parseFloat`. Floating-point values are carried as their text.
- Agent.Agent.ExecuteToolCalls: the `asyncio.gather` path runs its calls one after another in input order. With two identical cacheable calls in one batch, gather lets both miss the cache; in the model the second is served from it.
- MemoryManager.CompactedIds: it lists the compacted ids in batch order. The source builds `list(set(...))`, whose order is unspecified.
- MemoryManager.MaybeCompact: it requires a consistent store (`store.Valid()`): as many vectors as metadata entries. The store's own methods keep that invariant.
- JsonValues.PyRepr: strings are quoted with single quotes without the escaping and quote choice of Python's `repr`. Floats print as their stored text.
- JsonValues.PyStr: it is applied where the source calls `" ".join`, `.strip()` or an f-string on a value that may not be a string. Where Python would raise TypeError on a non-string (the bm25 headers list, a non-string `content`), the model uses its text.
- MessageTrimmer.TotalChars: a non-string `content` counts as the length of its text. Python's `len` counts the items of a list or dict and raises on a number.
- SessionStore.Store.SaveMessage: for an unknown session, the `sqlite3.IntegrityError` (foreign keys are on) is returned as the `raised` flag, with the tables unchanged. SessionStore.Store.SaveToolCall does the same.
- SessionStore: SQL ordering ties are modelled as relations. The session list's order comes in as a parameter of ChatRoutes.Server.ListSessions.
- FaissStore.FAISSStore: the index is a sequence of opaque vectors. Inner-product search is replaced by the hit list it returns, and the `-1` padding is the only index it can hold outside the metadata. Pickle and index files are not modelled.
- FaissStore.FAISSStore.Delete: `index.reconstruct` on a stale index is modelled as the `raised` flag.
- Logging is not modelled:
  - `_log_failure` in the output parser;
  - the `print` calls in `discover_extensions` and `dispatch`;
  - `_log_event` and OpenTelemetry spans in telemetry, and the `telemetry_warning` event.
- Agent.Agent.Monologue: the `_dispatch_hook` calls are not modelled. These are `message_loop_start`, `message_loop_prompts_before`, `before_llm_call`, `after_llm_call` and `monologue_end` (agent/agent.py:76, 87-105, 171-173, 238-240, 253). So a `before_llm_call` extension that replaces the messages sent to the model is not modelled; MessageTrimmer.TrimHistory models the one such extension on its own.
- Agent.Agent.Monologue: the prompt assembly, `_build_system_prompt`, model selection and the stream callback are not modelled. Each iteration's LLM reply, its token estimates and how each tool run ends come in as a Play. The tool calls are extracted from the reply by OutputParser.ExtractedCalls and run against the session's cache by RunCalls, as TurnOf and CacheAt say.
- Agent: the calls into telemetry (`_record_llm_metrics`, `_record_iteration`, `_record_tool_metrics`) are not modelled. Telemetry.Recorder models the recorder itself.
- AgentContext.AgentContext.CreateAgent: the `parent` and `system_prompt` arguments, and the telemetry object of the context, are not modelled. `_build_system_prompt` and the tool list given to the prompt are not modelled either; they are template I/O.
- CallSubordinate.Execute: the `on_stream` callback that is reassigned around the subordinate's run is not modelled.
- Models: `health_check`, `list_models`, `get_missing_models`, `chat_full` and `generate` are HTTP calls. Only their results enter the model, through the retry loop and ChatRoutes.CheckUrl.
- Models.OllamaClient.Chat: each streamed line is a parsed record. Socket reads, timeouts and sleeping are not modelled; sleeping is recorded as the list of delays.
- McpBridge: `discover_tools_sync` threads, the stdio subprocess pipes and the SSE listener are not modelled. Each transport's reply enters as a parameter.
- ModelRouter: `_looks_like_code` and `_looks_like_summary` are keyword regexes, modelled as predicates given as parameters.
- OutputParser: `_extract_from_code_fence`, `_extract_from_raw_json` and `_repair_json` are regex work, modelled as functions given as parameters.
- Telemetry.Recorder: durations and scores are `real` values that are stored and never computed.
- MemoryManager: `search`, `save`, `delete`, `forget`, `delete_by_id`, `get_stats`, `_prune_expired`, `_update_access_metadata` and `_importance_score` depend on embeddings, floating-point scores and clocks, and are not modelled. Their store updates are FaissStore's Add, Delete and UpdateMetadataBulk.
- KnowledgeImport: `_parse_file`, `_file_md5`, the state-file load and save, and `os.walk` are I/O. Each file enters as a FileEntry holding its path, hash and parse result.
- TemplateEngine: the template directory is a map from names to contents; an absolute name is a key of its own, as `os.path.join` returns it unchanged. `list_templates` (a glob) is not modelled. An include naming a directory, which Python would fail to open, is not distinguished from a file.
- CodeExecution.SessionTable.Execute: the `[Execution error: ...]` reply for a subprocess that fails to start or to take input is not modelled. Process output enters as a list of reads.
- ChatRoutes: `get_history` is a lookup with nothing to state and is not modelled. `SessionState`'s background thread is abstract: an accepted send marks the session running.
- ExtensionManager.Manager.DiscoverExtensions: the class order of `inspect.getmembers` comes in with the module description.
- JsonValues: a dict is an association list compared by key strings. Python's equality of keys such as `1` and `True` does not arise, because the keys are strings.
- ExtensionManager.DispatchedLast: the code returns the last non-None hook result, although the docstring says "first". The model follows the code.
- Auth: `bcrypt.checkpw` is a parameter that may fail, and a failure counts as a refusal.
- Clocks are passed in as strings. Timestamp order is string order, as SQLite compares the stored text.

## Findings

| source | as written | input that shows it | evidently intended | confidence | as-written member | corrected member |
|---|---|---|---|---|---|---|
| agent/models.py:131-143 | a stream that ends without a `done` record falls out of the `async for`; `while True` then sends the request again, with no attempt count and no sleep | every reply is the single line `{"message":{"content":"Hello"}}`, then end of stream: "Hello" is yielded again and again and the call never returns | return once the stream ends | not executed | Models.ChatAsWrittenRepeats | Models.ChatCorrectedStops |
