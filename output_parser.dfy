/**
 * Extraction of tool calls from raw LLM output (agent/output_parser.py).
 *
 * Four strategies are tried in a fixed order: fenced code blocks, raw JSON
 * objects found by regular expression, string-aware brace matching, and brace
 * matching followed by repair.  The regular expressions, `_repair_json` and
 * `json.loads` are supplied as `Oracles`; brace matching, normalisation,
 * validation and coercion are modelled exactly.
 */
module OutputParser {
  import opened Wrappers
  import opened Text
  import opened JsonValues
  import Sorting

  /** A validated call of a registered tool. */
  datatype ToolCall = ToolCall(name: string, args: Dict)

  /** A payload after normalisation and before validation. */
  datatype ParsedTool = ParsedTool(name: string, args: Dict)

  /** The Python types an argument schema can name. */
  datatype PyType = TStr | TInt | TFloat | TBool | TDict | TList | TNone

  /** A tool's schema: required argument names and per-argument accepted types, in declaration order. */
  datatype ToolSchema = ToolSchema(requiredArgs: seq<string>, argSchema: seq<(string, seq<PyType>)>)

  /** The parts of the parser that are regular expressions or library calls. */
  datatype Oracles = Oracles(
    codeFence: string -> seq<string>,     // _extract_from_code_fence
    rawJson: string -> seq<string>,       // _extract_from_raw_json
    repair: string -> string,             // _repair_json
    loads: string -> Option<Json>,        // json.loads; None when it raises
    parseFloat: string -> Option<string>) // float(s) as its repr; None on ValueError

  // ===========================================================================
  // String-aware brace matching (_find_json_objects)

  /** The loop variables of `_find_json_objects`. */
  datatype ScanState = ScanState(stack: seq<nat>, inString: bool, escape: bool, positions: seq<(nat, nat)>)

  const InitialScan := ScanState([], false, false, [])

  /** One iteration of the scanning loop on character `ch` at index `idx`. */
  function Step(st: ScanState, idx: nat, ch: char): ScanState {
    if ch == '\\' && !st.escape then st.(escape := true)
    else
      var inString := if ch == '"' && !st.escape then !st.inString else st.inString;
      var st' := st.(inString := inString, escape := false);
      if inString then st'
      else if ch == '{' then st'.(stack := st.stack + [idx])
      else if ch == '}' && st.stack != [] then
        st'.(stack := st.stack[..|st.stack| - 1],
             positions := st.positions + [(st.stack[|st.stack| - 1], idx + 1)])
      else st'
  }

  /** The loop variables after the first `n` characters. */
  function ScanPrefix(text: string, n: nat): ScanState
    requires n <= |text|
  {
    if n == 0 then InitialScan else Step(ScanPrefix(text, n - 1), n - 1, text[n - 1])
  }

  /** The brace at index `k` is outside every double-quoted string, so the scan counts it. */
  predicate CountedBrace(text: string, k: int) {
    0 <= k < |text| && (text[k] == '{' || text[k] == '}') && !ScanPrefix(text, k).inString
  }

  predicate StartLe(a: (nat, nat), b: (nat, nat)) {
    a.0 <= b.0
  }

  /** `sorted(positions, key=lambda pair: pair[0])` */
  function SortByStart(positions: seq<(nat, nat)>): seq<(nat, nat)> {
    Sorting.SortBy(positions, StartLe)
  }

  /** What `_find_json_objects` returns. */
  function JsonObjectSpans(text: string): seq<(nat, nat)> {
    SortByStart(ScanPrefix(text, |text|).positions)
  }

  method FindJsonObjects(text: string) returns (spans: seq<(nat, nat)>)
    ensures spans == JsonObjectSpans(text)
  {
    var positions: seq<(nat, nat)> := [];
    var stack: seq<nat> := [];
    var inString := false;
    var escape := false;
    var idx := 0;
    while idx < |text|
      invariant 0 <= idx <= |text|
      invariant ScanPrefix(text, idx) == ScanState(stack, inString, escape, positions)
    {
      var ch := text[idx];
      if ch == '\\' && !escape {
        escape := true;
      } else {
        if ch == '"' && !escape {
          inString := !inString;
        }
        escape := false;
        if !inString {
          if ch == '{' {
            stack := stack + [idx];
          } else if ch == '}' && stack != [] {
            var start := stack[|stack| - 1];
            stack := stack[..|stack| - 1];
            positions := positions + [(start, idx + 1)];
          }
        }
      }
      idx := idx + 1;
    }
    spans := SortByStart(positions);
  }

  /** What the scan keeps true: open braces and recorded spans are counted braces of the text read so far. */
  ghost predicate ScanFacts(text: string, n: nat)
    requires n <= |text|
  {
    var st := ScanPrefix(text, n);
    (forall i :: 0 <= i < |st.stack| ==>
       st.stack[i] < n && text[st.stack[i]] == '{' && CountedBrace(text, st.stack[i]))
    && (forall i, j :: 0 <= i < j < |st.stack| ==> st.stack[i] < st.stack[j])
    && (forall i :: 0 <= i < |st.positions| ==>
          var p := st.positions[i];
          p.0 < p.1 <= n && text[p.0] == '{' && text[p.1 - 1] == '}'
          && CountedBrace(text, p.0) && CountedBrace(text, p.1 - 1))
  }

  lemma ScanFactsStep(text: string, n: nat)
    requires 0 < n <= |text|
    requires ScanFacts(text, n - 1)
    ensures ScanFacts(text, n)
  {
    var st := ScanPrefix(text, n - 1);
    var ch := text[n - 1];
    var st' := ScanPrefix(text, n);
    assert st' == Step(st, n - 1, ch);
    if st'.stack == st.stack && st'.positions == st.positions {
      ScanFactsKeep(text, n);
    } else if st'.positions == st.positions {
      assert CountedBrace(text, n - 1);
      ScanFactsPush(text, n);
    } else {
      assert CountedBrace(text, n - 1);
      ScanFactsPop(text, n);
    }
  }

  lemma ScanFactsKeep(text: string, n: nat)
    requires 0 < n <= |text|
    requires ScanFacts(text, n - 1)
    requires ScanPrefix(text, n).stack == ScanPrefix(text, n - 1).stack
    requires ScanPrefix(text, n).positions == ScanPrefix(text, n - 1).positions
    ensures ScanFacts(text, n)
  {
  }

  lemma ScanFactsPush(text: string, n: nat)
    requires 0 < n <= |text|
    requires ScanFacts(text, n - 1)
    requires ScanPrefix(text, n).stack == ScanPrefix(text, n - 1).stack + [n - 1]
    requires ScanPrefix(text, n).positions == ScanPrefix(text, n - 1).positions
    requires text[n - 1] == '{' && CountedBrace(text, n - 1)
    ensures ScanFacts(text, n)
  {
  }

  lemma ScanFactsPop(text: string, n: nat)
    requires 0 < n <= |text|
    requires ScanFacts(text, n - 1)
    requires ScanPrefix(text, n - 1).stack != []
    requires var st := ScanPrefix(text, n - 1);
      ScanPrefix(text, n).stack == st.stack[..|st.stack| - 1]
      && ScanPrefix(text, n).positions == st.positions + [(st.stack[|st.stack| - 1], n)]
    requires text[n - 1] == '}' && CountedBrace(text, n - 1)
    ensures ScanFacts(text, n)
  {
    var st := ScanPrefix(text, n - 1);
    assert st.stack[|st.stack| - 1] < n - 1;
  }

  lemma {:induction false} ScanFactsHold(text: string, n: nat)
    requires n <= |text|
    ensures ScanFacts(text, n)
  {
    if n > 0 {
      ScanFactsHold(text, n - 1);
      ScanFactsStep(text, n);
    }
  }

  lemma StartLeTotalPreorder()
    ensures Sorting.TotalPreorder(StartLe)
  {
  }

  /** A span from a counted `{` to a counted `}` after it. */
  predicate SpanOk(text: string, p: (nat, nat)) {
    p.0 < p.1 <= |text| && text[p.0] == '{' && text[p.1 - 1] == '}'
    && CountedBrace(text, p.0) && CountedBrace(text, p.1 - 1)
  }

  lemma PositionsOk(text: string)
    ensures forall i :: 0 <= i < |ScanPrefix(text, |text|).positions| ==> SpanOk(text, ScanPrefix(text, |text|).positions[i])
  {
    ScanFactsHold(text, |text|);
  }

  /** Every span runs from a counted `{` to a counted `}` after it, and the list is ordered by start. */
  lemma JsonObjectSpansWellFormed(text: string)
    ensures forall p :: p in JsonObjectSpans(text) ==> SpanOk(text, p)
    ensures Sorting.SortedBy(JsonObjectSpans(text), StartLe)
  {
    var positions := ScanPrefix(text, |text|).positions;
    PositionsOk(text);
    forall p | p in JsonObjectSpans(text)
      ensures SpanOk(text, p)
    {
      Sorting.SortByMember(positions, StartLe, p);
      var i :| 0 <= i < |positions| && positions[i] == p;
    }
    StartLeTotalPreorder();
    Sorting.SortBySorted(positions, StartLe);
  }

  /**
   * An unescaped backslash neutralises the character after it: that character
   * neither opens or closes a string nor starts another escape.
   */
  lemma BackslashNeutralisesNext(text: string, k: nat)
    requires k + 1 < |text|
    requires text[k] == '\\' && !ScanPrefix(text, k).escape
    ensures ScanPrefix(text, k + 1).escape
    ensures ScanPrefix(text, k + 2).inString == ScanPrefix(text, k).inString
    ensures !ScanPrefix(text, k + 2).escape
  {
  }

  /** A brace inside a string changes neither the stack nor the spans. */
  lemma QuotedBraceIgnored(text: string, k: nat)
    requires k < |text| && (text[k] == '{' || text[k] == '}')
    requires ScanPrefix(text, k).inString
    ensures ScanPrefix(text, k + 1).stack == ScanPrefix(text, k).stack
    ensures ScanPrefix(text, k + 1).positions == ScanPrefix(text, k).positions
  {
  }

  /** A closing brace with no open brace on the stack is ignored. */
  lemma UnmatchedCloseIgnored(text: string, k: nat)
    requires k < |text| && text[k] == '}'
    requires ScanPrefix(text, k).stack == []
    ensures ScanPrefix(text, k + 1).stack == []
    ensures ScanPrefix(text, k + 1).positions == ScanPrefix(text, k).positions
  {
  }

  // ===========================================================================
  // Candidate snippets for the bracket_match and repair strategies

  /** `text[a:b]` with Python's clamping of out-of-range bounds. */
  function PySlice(text: string, a: nat, b: nat): string {
    var lo := if a <= |text| then a else |text|;
    var hi := if b <= |text| then b else |text|;
    if lo <= hi then text[lo..hi] else []
  }

  predicate MentionsTool(snippet: string) {
    Contains(snippet, "tool_name") || Contains(snippet, "\"tool\"") || Contains(snippet, "'tool'")
  }

  /** The snippets of `spans` that mention a tool, each transformed by `f`, in span order. */
  function MentioningSnippets(text: string, spans: seq<(nat, nat)>, f: string -> string): (r: seq<string>)
    ensures |r| <= |spans|
  {
    if spans == [] then []
    else MentioningSnippets(text, spans[..|spans| - 1], f) + SnippetOf(text, spans[|spans| - 1], f)
  }

  /** The snippet of one span, transformed by `f`, if it mentions a tool. */
  function SnippetOf(text: string, span: (nat, nat), f: string -> string): (r: seq<string>)
    ensures |r| <= 1
  {
    var snippet := PySlice(text, span.0, span.1);
    if MentionsTool(snippet) then [f(snippet)] else []
  }

  lemma MentioningSnippetsSnoc(text: string, spans: seq<(nat, nat)>, i: nat, f: string -> string)
    requires i < |spans|
    ensures MentioningSnippets(text, spans[..i + 1], f) == MentioningSnippets(text, spans[..i], f) + SnippetOf(text, spans[i], f)
  {
    assert spans[..i + 1][..i] == spans[..i];
  }

  function BracketCandidates(text: string): seq<string> {
    MentioningSnippets(text, JsonObjectSpans(text), Strip)
  }

  /** The loop over the balanced spans shared by both extraction strategies. */
  method CollectSnippets(text: string, spans: seq<(nat, nat)>, f: string -> string) returns (found: seq<string>)
    ensures found == MentioningSnippets(text, spans, f)
  {
    found := [];
    var i := 0;
    while i < |spans|
      invariant 0 <= i <= |spans|
      invariant found == MentioningSnippets(text, spans[..i], f)
    {
      MentioningSnippetsSnoc(text, spans, i, f);
      found := found + SnippetOf(text, spans[i], f);
      i := i + 1;
    }
    assert spans[..|spans|] == spans;
  }

  method ExtractWithBracketMatching(text: string) returns (candidates: seq<string>)
    ensures candidates == BracketCandidates(text)
  {
    var spans := FindJsonObjects(text);
    candidates := CollectSnippets(text, spans, Strip);
  }

  /** `[c for c in candidates if c.strip()]` */
  function NonBlank(cs: seq<string>): (r: seq<string>)
    ensures forall i :: 0 <= i < |r| ==> !IsBlank(r[i])
    ensures |r| <= |cs|
  {
    if cs == [] then []
    else (if IsBlank(cs[0]) then [] else [cs[0]]) + NonBlank(cs[1..])
  }

  function RepairCandidates(text: string, o: Oracles): seq<string> {
    var found := MentioningSnippets(text, JsonObjectSpans(text), o.repair);
    var candidates :=
      if found == [] && (Contains(text, "tool_name") || Contains(text, "\"tool\"")) then [o.repair(text)]
      else found;
    NonBlank(candidates)
  }

  method ExtractWithRepair(text: string, o: Oracles) returns (candidates: seq<string>)
    ensures candidates == RepairCandidates(text, o)
  {
    var spans := FindJsonObjects(text);
    var found := CollectSnippets(text, spans, o.repair);
    if found == [] && (Contains(text, "tool_name") || Contains(text, "\"tool\"")) {
      found := found + [o.repair(text)];
    }
    candidates := NonBlank(found);
  }

  // ===========================================================================
  // Payload parsing and normalisation

  /** `_parse_json`: decode, and on failure decode the repaired text if repair changed it. */
  function ParseJson(text: string, o: Oracles): (r: Result<Json>)
    ensures r.Failure? ==> o.loads(text).None?
    ensures o.loads(text).Some? ==> r == Success(o.loads(text).value)
    ensures o.loads(text).None? && o.repair(text) != text && o.loads(o.repair(text)).Some? ==>
      r == Success(o.loads(o.repair(text)).value)
    ensures o.loads(text).None? && o.repair(text) == text ==> r == Failure("invalid JSON")
    ensures o.loads(text).None? && o.repair(text) != text && o.loads(o.repair(text)).None? ==>
      r == Failure("invalid JSON after repair")
  {
    match o.loads(text)
    case Some(v) => Success(v)
    case None =>
      var repaired := o.repair(text);
      if repaired == text then Failure("invalid JSON")
      else
        match o.loads(repaired)
        case Some(v) => Success(v)
        case None => Failure("invalid JSON after repair")
  }

  /** The value of the first of `alts` present in `d`. */
  function FirstPresent(d: Dict, alts: seq<string>): (r: Option<Json>)
    ensures r.None? <==> forall i :: 0 <= i < |alts| ==> !HasKey(d, alts[i])
  {
    if alts == [] then None
    else if HasKey(d, alts[0]) then Get(d, alts[0])
    else FirstPresent(d, alts[1..])
  }

  /** If `key` is absent, copy into it the value of the first of `alts` present. */
  function CopyAlias(d: Dict, key: string, alts: seq<string>): Dict {
    if HasKey(d, key) then d
    else
      match FirstPresent(d, alts)
      case Some(v) => Put(d, key, v)
      case None => d
  }

  /** `_normalize_args`: tool-specific aliases for common argument-name mistakes. */
  function NormalizeArgs(toolName: string, args: Dict): Dict {
    var a1 := if toolName == "response" || toolName == "task_done"
      then CopyAlias(args, "text", ["message", "content", "answer"]) else args;
    var a2 := if toolName == "code_execution" then CopyAlias(a1, "code", ["script", "command"]) else a1;
    if toolName == "memory" && !HasKey(a2, "text") && HasKey(a2, "query")
    then Put(a2, "text", Get(a2, "query").value) else a2
  }

  /** `_normalize_payload` */
  function NormalizePayload(data: Json): Result<ParsedTool> {
    if !data.JObject? then Failure("JSON payload is not an object")
    else
      var p1 := CopyAlias(data.fields, "tool_name", ["tool", "name"]);
      var p2 := CopyAlias(p1, "tool_args", ["args", "arguments"]);
      var toolName := Strip(PyStr(GetOr(p2, "tool_name", JStr(""))));
      if toolName == [] then Failure("Missing tool_name")
      else
        var a := GetOr(p2, "tool_args", JObject([]));
        var args := if a.JObject? then a.fields else [];
        Success(ParsedTool(toolName, NormalizeArgs(toolName, args)))
  }

  /** Only an object can be a payload, and a normalised name is non-empty and already stripped. */
  lemma NormalizePayloadName(data: Json)
    ensures !data.JObject? ==> NormalizePayload(data) == Failure("JSON payload is not an object")
    ensures NormalizePayload(data).Success? ==>
      NormalizePayload(data).value.name == Strip(NormalizePayload(data).value.name) && NormalizePayload(data).value.name != []
  {
    if data.JObject? {
      var p1 := CopyAlias(data.fields, "tool_name", ["tool", "name"]);
      var p2 := CopyAlias(p1, "tool_args", ["args", "arguments"]);
      StripIdempotent(PyStr(GetOr(p2, "tool_name", JStr(""))));
    }
  }

  lemma StripIdempotent(s: string)
    ensures Strip(Strip(s)) == Strip(s)
  {
    var t := Strip(s);
    if t != [] {
      assert LStrip(t) == t;
      assert RStrip(t) == t;
    }
  }

  // ---- an independent statement of where the name and the arguments come from

  /** The key that supplies the tool name: "tool_name", else "tool", else "name". */
  function NameSource(d: Dict): Json {
    if HasKey(d, "tool_name") then Get(d, "tool_name").value
    else if HasKey(d, "tool") then Get(d, "tool").value
    else if HasKey(d, "name") then Get(d, "name").value
    else JStr("")
  }

  /** The key that supplies the arguments: "tool_args", else "args", else "arguments"; non-objects give `{}`. */
  function ArgsSource(d: Dict): Dict {
    var a :=
      if HasKey(d, "tool_args") then Get(d, "tool_args").value
      else if HasKey(d, "args") then Get(d, "args").value
      else if HasKey(d, "arguments") then Get(d, "arguments").value
      else JObject([]);
    if a.JObject? then a.fields else []
  }

  /** `CopyAlias` gives `key` its own value, else the first alias present, and touches no other key. */
  lemma CopyAliasEffect(d: Dict, key: string, alts: seq<string>)
    ensures Get(CopyAlias(d, key, alts), key) == if HasKey(d, key) then Get(d, key) else FirstPresent(d, alts)
    ensures forall k :: k != key ==> Get(CopyAlias(d, key, alts), k) == Get(d, k)
    ensures forall k :: k != key ==> (HasKey(CopyAlias(d, key, alts), k) <==> HasKey(d, k))
  {
    forall k | k != key
      ensures Get(CopyAlias(d, key, alts), k) == Get(d, k)
      ensures HasKey(CopyAlias(d, key, alts), k) <==> HasKey(d, k)
    {
      if !HasKey(d, key) && FirstPresent(d, alts).Some? {
        PutOther(d, key, FirstPresent(d, alts).value, k);
      }
    }
  }

  /**
   * Normalisation takes the name from the first present of tool_name, tool and
   * name, and the arguments from the first present of tool_args, args and
   * arguments, replacing a non-object by `{}`; a blank name is rejected.
   */
  lemma NormalizePayloadSources(fields: Dict)
    ensures var name := Strip(PyStr(NameSource(fields)));
      NormalizePayload(JObject(fields)) ==
        if name == [] then Failure("Missing tool_name")
        else Success(ParsedTool(name, NormalizeArgs(name, ArgsSource(fields))))
  {
    CopiedSources(fields);
  }

  /** After the two alias copies the name and the arguments are the ones their sources give. */
  lemma CopiedSources(fields: Dict)
    ensures var p2 := CopyAlias(CopyAlias(fields, "tool_name", ["tool", "name"]), "tool_args", ["args", "arguments"]);
      var a := GetOr(p2, "tool_args", JObject([]));
      GetOr(p2, "tool_name", JStr("")) == NameSource(fields) && (if a.JObject? then a.fields else []) == ArgsSource(fields)
  {
    NameCopied(fields);
    ArgsCopied(fields);
  }

  lemma NameCopied(fields: Dict)
    ensures var p2 := CopyAlias(CopyAlias(fields, "tool_name", ["tool", "name"]), "tool_args", ["args", "arguments"]);
      Get(p2, "tool_name") == Get(CopyAlias(fields, "tool_name", ["tool", "name"]), "tool_name")
      && GetOr(p2, "tool_name", JStr("")) == NameSource(fields)
  {
    var p1 := CopyAlias(fields, "tool_name", ["tool", "name"]);
    CopyTwoAliases(fields, "tool_name", "tool", "name");
    CopyAliasEffect(p1, "tool_args", ["args", "arguments"]);
  }

  lemma ArgsCopied(fields: Dict)
    ensures var p2 := CopyAlias(CopyAlias(fields, "tool_name", ["tool", "name"]), "tool_args", ["args", "arguments"]);
      var a := GetOr(p2, "tool_args", JObject([]));
      (if a.JObject? then a.fields else []) == ArgsSource(fields)
  {
    var p1 := CopyAlias(fields, "tool_name", ["tool", "name"]);
    CopyAliasEffect(fields, "tool_name", ["tool", "name"]);
    assert Get(p1, "tool_args") == Get(fields, "tool_args") && HasKey(p1, "tool_args") == HasKey(fields, "tool_args");
    assert Get(p1, "args") == Get(fields, "args") && HasKey(p1, "args") == HasKey(fields, "args");
    assert Get(p1, "arguments") == Get(fields, "arguments") && HasKey(p1, "arguments") == HasKey(fields, "arguments");
    CopyTwoAliases(p1, "tool_args", "args", "arguments");
  }

  /** `CopyAlias` with two aliases, written out. */
  lemma CopyTwoAliases(d: Dict, key: string, a: string, b: string)
    ensures Get(CopyAlias(d, key, [a, b]), key) ==
      if HasKey(d, key) then Get(d, key)
      else if HasKey(d, a) then Get(d, a)
      else if HasKey(d, b) then Get(d, b)
      else None
  {
    CopyAliasEffect(d, key, [a, b]);
    assert [a, b][1..] == [b];
    assert FirstPresent(d, [b]) == if HasKey(d, b) then Get(d, b) else None;
  }

  /**
   * `_normalize_args` only ever adds "text" or "code", only when absent, from the
   * aliases of its tool; every other key is unchanged, and other tools' arguments
   * are returned as they are.
   */
  lemma NormalizeArgsEffect(toolName: string, args: Dict)
    ensures forall k :: k != "text" && k != "code" ==> Get(NormalizeArgs(toolName, args), k) == Get(args, k)
    ensures HasKey(args, "text") ==> Get(NormalizeArgs(toolName, args), "text") == Get(args, "text")
    ensures HasKey(args, "code") ==> Get(NormalizeArgs(toolName, args), "code") == Get(args, "code")
    ensures toolName !in {"response", "task_done", "code_execution", "memory"} ==> NormalizeArgs(toolName, args) == args
    ensures (toolName == "response" || toolName == "task_done") && !HasKey(args, "text") ==>
      Get(NormalizeArgs(toolName, args), "text") == FirstPresent(args, ["message", "content", "answer"])
    ensures toolName == "code_execution" && !HasKey(args, "code") ==>
      Get(NormalizeArgs(toolName, args), "code") == FirstPresent(args, ["script", "command"])
    ensures toolName == "memory" && !HasKey(args, "text") ==>
      Get(NormalizeArgs(toolName, args), "text") == Get(args, "query")
  {
    CopyAliasEffect(args, "text", ["message", "content", "answer"]);
    CopyAliasEffect(args, "code", ["script", "command"]);
    if toolName == "memory" && !HasKey(args, "text") && HasKey(args, "query") {
      forall k | k != "text"
        ensures Get(NormalizeArgs(toolName, args), k) == Get(args, k)
      {
        PutOther(args, "text", Get(args, "query").value, k);
      }
    }
  }

  /** `_parse_payload` specified: one bad item in a list discards the whole payload, reporting the first error. */
  function NormalizeItems(items: seq<Json>): Result<seq<ParsedTool>> {
    if items == [] then Success([])
    else
      match NormalizeItems(items[..|items| - 1])
      case Failure(e) => Failure(e)
      case Success(ps) => AppendNormalized(ps, items[|items| - 1])
  }

  /** `ps` followed by the normalisation of `item`, or that item's error. */
  function AppendNormalized(ps: seq<ParsedTool>, item: Json): Result<seq<ParsedTool>> {
    match NormalizePayload(item)
    case Failure(e) => Failure(e)
    case Success(p) => Success(ps + [p])
  }

  function ParsedTools(text: string, o: Oracles): Result<seq<ParsedTool>> {
    match ParseJson(text, o)
    case Failure(e) => Failure(e)
    case Success(data) => ParsedContents(data)
  }

  /** A list is normalised item by item; anything else is a single payload. */
  function ParsedContents(data: Json): Result<seq<ParsedTool>> {
    if data.JArray? then NormalizeItems(data.items)
    else AppendNormalized([], data)
  }

  method ParsePayload(text: string, o: Oracles) returns (r: Result<seq<ParsedTool>>)
    ensures r == ParsedTools(text, o)
  {
    var data := ParseJson(text, o);
    if data.Failure? {
      r := Failure(data.error);
    } else {
      r := ParseContents(data.value);
    }
  }

  /** A decoded payload: a list item by item, anything else as one object. */
  method ParseContents(data: Json) returns (r: Result<seq<ParsedTool>>)
    ensures r == ParsedContents(data)
  {
    if data.JArray? {
      r := NormalizeList(data.items);
    } else {
      r := NormalizeSingle(data);
    }
  }

  /** A single object payload: its normalisation, as a list of one. */
  method NormalizeSingle(data: Json) returns (r: Result<seq<ParsedTool>>)
    ensures r == AppendNormalized([], data)
  {
    var parsed := NormalizePayload(data);
    if parsed.Failure? {
      r := Failure(parsed.error);
    } else {
      r := Success([parsed.value]);
      assert [] + [parsed.value] == [parsed.value];
    }
  }

  /** The list branch of `_parse_payload`: normalise each item, stopping at the first failure. */
  method NormalizeList(items: seq<Json>) returns (r: Result<seq<ParsedTool>>)
    ensures r == NormalizeItems(items)
  {
    r := Success([]);
    var i := 0;
    while i < |items| && r.Success?
      invariant 0 <= i <= |items|
      invariant r == NormalizeItems(items[..i])
      invariant r.Failure? ==> 0 < i
    {
      NormalizeItemsSnoc(items, i, r.value);
      var parsed := NormalizePayload(items[i]);
      if parsed.Failure? {
        r := Failure(parsed.error);
      } else {
        r := Success(r.value + [parsed.value]);
      }
      i := i + 1;
    }
    if r.Failure? {
      FailureSticks(items, i);
    } else {
      assert items[..i] == items;
    }
  }

  lemma NormalizeItemsSnoc(items: seq<Json>, i: nat, ps: seq<ParsedTool>)
    requires i < |items| && NormalizeItems(items[..i]) == Success(ps)
    ensures NormalizeItems(items[..i + 1]) == AppendNormalized(ps, items[i])
  {
    assert items[..i + 1][..i] == items[..i];
  }

  /** Once a prefix of the items fails, the whole list fails with the same error. */
  lemma {:induction false} FailureSticks(items: seq<Json>, n: nat)
    requires 0 < n <= |items| && NormalizeItems(items[..n]).Failure?
    ensures NormalizeItems(items) == NormalizeItems(items[..n])
  {
    if n < |items| {
      var init := items[..|items| - 1];
      assert init[..n] == items[..n];
      FailureSticks(init, n);
      assert items[..|items|] == items;
    } else {
      assert items[..n] == items;
    }
  }

  /** A list payload with an item that fails normalisation yields no tools at all. */
  lemma {:induction false} BadItemDiscardsPayload(items: seq<Json>, k: nat)
    requires k < |items| && NormalizePayload(items[k]).Failure?
    ensures NormalizeItems(items).Failure?
  {
    if k < |items| - 1 {
      var init := items[..|items| - 1];
      assert init[k] == items[k];
      BadItemDiscardsPayload(init, k);
    } else {
      var init := items[..|items| - 1];
      if NormalizeItems(init).Success? {
        assert items[|items| - 1] == items[k];
      }
    }
  }

  // ===========================================================================
  // Coercion (_coerce_value)

  /** `isinstance(v, t)`; a Python bool is also an int. */
  predicate IsInstance(v: Json, t: PyType) {
    match t
    case TStr => v.JStr?
    case TInt => v.JInt? || v.JBool?
    case TFloat => v.JFloat?
    case TBool => v.JBool?
    case TDict => v.JObject?
    case TList => v.JArray?
    case TNone => v.JNull?
  }

  predicate IsInstanceOfAny(v: Json, ts: seq<PyType>) {
    exists i :: 0 <= i < |ts| && IsInstance(v, ts[i])
  }

  /** `_coerce_value(value, expected)`: the possibly converted value and whether it is acceptable. */
  function Coerce(value: Json, expected: seq<PyType>, parseFloat: string -> Option<string>): (r: (Json, bool))
    ensures r.1 ==> IsInstanceOfAny(r.0, expected)
  {
    if value.JNull? && TNone in expected then
      (value, true)
    else if TStr in expected && !value.JStr? then
      (JStr(PyStr(value)), true)
    else if (TInt in expected || TFloat in expected) && value.JStr?
         && ((TInt in expected && IsDigits(value.s)) || TFloat in expected) then
      if TInt in expected && IsDigits(value.s) then (JInt(ParseDigits(value.s)), true)
      else
        match parseFloat(value.s)
        case Some(repr) => (JFloat(repr), true)
        case None => (value, false)
    else if IsInstanceOfAny(value, expected) then
      (value, true)
    else
      (value, false)
  }

  /** The non-float cases of coercion. */
  lemma CoerceCases(value: Json, expected: seq<PyType>, pf: string -> Option<string>)
    ensures TStr in expected && !value.JStr? && !(value.JNull? && TNone in expected) ==>
      Coerce(value, expected, pf) == (JStr(PyStr(value)), true)
    ensures TInt in expected && value.JStr? && IsDigits(value.s) ==>
      Coerce(value, expected, pf) == (JInt(ParseDigits(value.s)), true)
    ensures (IsInstanceOfAny(value, expected) && TFloat !in expected && (value.JStr? || TStr !in expected)
      && !(value.JStr? && TInt in expected && IsDigits(value.s))) ==>
      Coerce(value, expected, pf) == (value, true)
    ensures (!IsInstanceOfAny(value, expected) && TStr !in expected && TFloat !in expected
      && !(value.JStr? && TInt in expected && IsDigits(value.s))) ==>
      !Coerce(value, expected, pf).1
  {
  }

  // ===========================================================================
  // Validation (_validate_tool_call)

  /** `tools[i]` is the last registered spelling with its lowering. */
  predicate LastSpelling(tools: seq<string>, i: int) {
    0 <= i < |tools| && forall j :: i < j < |tools| ==> Lower(tools[j]) != Lower(tools[i])
  }

  /** `{t.lower(): t for t in tools}`: a later spelling of the same lower-cased name wins. */
  function RegisteredMap(tools: seq<string>): (m: map<string, string>)
    ensures forall k :: k in m <==> exists i :: 0 <= i < |tools| && Lower(tools[i]) == k
    ensures forall k :: k in m ==> Lower(m[k]) == k && m[k] in tools
  {
    if tools == [] then map[]
    else
      var m := RegisteredMap(tools[..|tools| - 1]);
      assert forall i :: 0 <= i < |tools| - 1 ==> tools[..|tools| - 1][i] == tools[i];
      m[Lower(tools[|tools| - 1]) := tools[|tools| - 1]]
  }

  /** Each lowered name maps to its last registered spelling, as the comprehension overwrites earlier ones. */
  lemma {:induction false} RegisteredMapLast(tools: seq<string>, k: string)
    requires k in RegisteredMap(tools)
    ensures exists i :: LastSpelling(tools, i) && RegisteredMap(tools)[k] == tools[i]
  {
    var n := |tools| - 1;
    if k == Lower(tools[n]) {
      assert LastSpelling(tools, n);
    } else {
      RegisteredMapLast(tools[..n], k);
      var i :| LastSpelling(tools[..n], i) && RegisteredMap(tools[..n])[k] == tools[..n][i];
      LastSpellingExtends(tools, i);
    }
  }

  lemma LastSpellingExtends(tools: seq<string>, i: int)
    requires tools != [] && LastSpelling(tools[..|tools| - 1], i)
    requires Lower(tools[i]) != Lower(tools[|tools| - 1])
    ensures LastSpelling(tools, i)
  {
    var n := |tools| - 1;
    forall j | i < j < |tools|
      ensures Lower(tools[j]) != Lower(tools[i])
    {
      if j < n {
        assert tools[..n][j] == tools[j] && tools[..n][i] == tools[i];
      }
    }
  }

  predicate AbsentOrEmpty(args: Dict, key: string) {
    match Get(args, key)
    case None => true
    case Some(v) => v == JNull || v == JStr("")
  }

  /** The required keys that are absent, None or "", in order. */
  function MissingArgs(required: seq<string>, args: Dict): (r: seq<string>)
    ensures r == [] <==> forall i :: 0 <= i < |required| ==> !AbsentOrEmpty(args, required[i])
  {
    if required == [] then []
    else (if AbsentOrEmpty(args, required[0]) then [required[0]] else []) + MissingArgs(required[1..], args)
  }

  /** Coercion of every schema argument that is present, in schema order; the first failure rejects. */
  function CoerceAll(argSchema: seq<(string, seq<PyType>)>, args: Dict, pf: string -> Option<string>): Result<Dict> {
    if argSchema == [] then Success(args)
    else
      var key := argSchema[0].0;
      if !HasKey(args, key) then CoerceAll(argSchema[1..], args, pf)
      else
        var c := Coerce(Get(args, key).value, argSchema[0].1, pf);
        if !c.1 then Failure("Invalid type for '" + key + "'")
        else CoerceAll(argSchema[1..], Put(args, key, c.0), pf)
  }

  function SchemaOf(schemas: map<string, ToolSchema>, name: string): ToolSchema {
    if name in schemas then schemas[name] else ToolSchema([], [])
  }

  function Validation(parsed: ParsedTool, registered: map<string, string>, schemas: map<string, ToolSchema>,
                      pf: string -> Option<string>): Result<ToolCall>
  {
    var toolName := Strip(parsed.name);
    var key := Lower(toolName);
    if key !in registered then Failure("Unknown tool '" + toolName + "'")
    else ValidateKnown(registered[key], parsed.args, schemas, pf)
  }

  /** The checks after the name lookup: required arguments, then coercion. */
  function ValidateKnown(canonical: string, args: Dict, schemas: map<string, ToolSchema>,
                         pf: string -> Option<string>): Result<ToolCall>
  {
    var schema := SchemaOf(schemas, canonical);
    var missing := MissingArgs(schema.requiredArgs, args);
    if missing != [] then Failure("Missing required args: " + Join(missing, ", "))
    else
      match CoerceAll(schema.argSchema, args, pf)
      case Failure(e) => Failure(e)
      case Success(coerced) => Success(ToolCall(canonical, coerced))
  }

  method ValidateToolCall(parsed: ParsedTool, registered: map<string, string>, schemas: map<string, ToolSchema>,
                          pf: string -> Option<string>) returns (r: Result<ToolCall>)
    ensures r == Validation(parsed, registered, schemas, pf)
  {
    var toolName := Strip(parsed.name);
    var key := Lower(toolName);
    if key !in registered {
      return Failure("Unknown tool '" + toolName + "'");
    }
    var canonical := registered[key];
    var schema := SchemaOf(schemas, canonical);
    var missing := MissingArgs(schema.requiredArgs, parsed.args);
    if missing != [] {
      return Failure("Missing required args: " + Join(missing, ", "));
    }
    var args := parsed.args;
    var i := 0;
    while i < |schema.argSchema|
      invariant 0 <= i <= |schema.argSchema|
      invariant CoerceAll(schema.argSchema, parsed.args, pf) == CoerceAll(schema.argSchema[i..], args, pf)
    {
      assert schema.argSchema[i..][1..] == schema.argSchema[i + 1..];
      var key := schema.argSchema[i].0;
      if HasKey(args, key) {
        var c := Coerce(Get(args, key).value, schema.argSchema[i].1, pf);
        if !c.1 {
          return Failure("Invalid type for '" + key + "'");
        }
        args := Put(args, key, c.0);
      }
      i := i + 1;
    }
    assert schema.argSchema[i..] == [];
    r := Success(ToolCall(canonical, args));
  }

  predicate DistinctSchemaKeys(argSchema: seq<(string, seq<PyType>)>) {
    forall i, j :: 0 <= i < j < |argSchema| ==> argSchema[i].0 != argSchema[j].0
  }

  /** Coercion keeps the set of keys. */
  lemma {:induction false} CoerceAllHasKey(argSchema: seq<(string, seq<PyType>)>, args: Dict,
                                           pf: string -> Option<string>, k: string)
    requires CoerceAll(argSchema, args, pf).Success?
    ensures HasKey(CoerceAll(argSchema, args, pf).value, k) <==> HasKey(args, k)
  {
    if argSchema != [] {
      var key := argSchema[0].0;
      if !HasKey(args, key) {
        CoerceAllHasKey(argSchema[1..], args, pf, k);
      } else {
        var c := Coerce(Get(args, key).value, argSchema[0].1, pf);
        if k != key {
          PutOther(args, key, c.0, k);
        }
        CoerceAllHasKey(argSchema[1..], Put(args, key, c.0), pf, k);
      }
    }
  }

  /** A key the schema does not name keeps its value. */
  lemma {:induction false} CoerceAllOther(argSchema: seq<(string, seq<PyType>)>, args: Dict,
                                          pf: string -> Option<string>, k: string)
    requires CoerceAll(argSchema, args, pf).Success?
    requires forall i :: 0 <= i < |argSchema| ==> argSchema[i].0 != k
    ensures Get(CoerceAll(argSchema, args, pf).value, k) == Get(args, k)
  {
    if argSchema != [] {
      var key := argSchema[0].0;
      assert forall i :: 0 <= i < |argSchema| - 1 ==> argSchema[1..][i] == argSchema[i + 1];
      if !HasKey(args, key) {
        CoerceAllOther(argSchema[1..], args, pf, k);
      } else {
        var c := Coerce(Get(args, key).value, argSchema[0].1, pf);
        PutOther(args, key, c.0, k);
        CoerceAllOther(argSchema[1..], Put(args, key, c.0), pf, k);
      }
    }
  }

  /** Every schema argument that is present ends up with a value of an accepted type. */
  lemma {:induction false} CoerceAllTyped(argSchema: seq<(string, seq<PyType>)>, args: Dict,
                                          pf: string -> Option<string>, i: nat)
    requires DistinctSchemaKeys(argSchema)
    requires CoerceAll(argSchema, args, pf).Success?
    requires i < |argSchema| && HasKey(args, argSchema[i].0)
    ensures HasKey(CoerceAll(argSchema, args, pf).value, argSchema[i].0)
    ensures IsInstanceOfAny(Get(CoerceAll(argSchema, args, pf).value, argSchema[i].0).value, argSchema[i].1)
  {
    CoerceAllHasKey(argSchema, args, pf, argSchema[i].0);
    var key := argSchema[0].0;
    var rest := argSchema[1..];
    assert forall j :: 0 <= j < |rest| ==> rest[j] == argSchema[j + 1];
    assert DistinctSchemaKeys(rest);
    if !HasKey(args, key) {
      assert CoerceAll(argSchema, args, pf) == CoerceAll(rest, args, pf);
      CoerceAllTyped(rest, args, pf, i - 1);
    } else {
      var c := Coerce(Get(args, key).value, argSchema[0].1, pf);
      var args' := Put(args, key, c.0);
      assert c.1 && CoerceAll(argSchema, args, pf) == CoerceAll(rest, args', pf);
      if i == 0 {
        assert forall j :: 0 <= j < |rest| ==> rest[j].0 != key;
        CoerceAllOther(rest, args', pf, key);
      } else {
        assert argSchema[i].0 != key && rest[i - 1] == argSchema[i];
        PutOther(args, key, c.0, argSchema[i].0);
        CoerceAllTyped(rest, args', pf, i - 1);
      }
    }
  }

  /** Coercion keeps the set of keys and leaves every schema argument it accepts well typed. */
  lemma CoerceAllSound(argSchema: seq<(string, seq<PyType>)>, args: Dict, pf: string -> Option<string>)
    requires DistinctSchemaKeys(argSchema)
    requires CoerceAll(argSchema, args, pf).Success?
    ensures forall k :: HasKey(CoerceAll(argSchema, args, pf).value, k) <==> HasKey(args, k)
    ensures forall i :: 0 <= i < |argSchema| && HasKey(args, argSchema[i].0) ==>
      IsInstanceOfAny(Get(CoerceAll(argSchema, args, pf).value, argSchema[i].0).value, argSchema[i].1)
  {
    forall k {
      CoerceAllHasKey(argSchema, args, pf, k);
    }
    forall i | 0 <= i < |argSchema| && HasKey(args, argSchema[i].0) {
      CoerceAllTyped(argSchema, args, pf, i);
    }
  }

  /**
   * A validated call carries the registered spelling of a name that matches
   * the requested one case-insensitively, has every required argument present
   * with a value other than None or "", keeps the argument keys, and has every
   * schema argument it carries coerced to an accepted type.
   */
  lemma ValidationSound(parsed: ParsedTool, tools: seq<string>, schemas: map<string, ToolSchema>, pf: string -> Option<string>)
    requires Validation(parsed, RegisteredMap(tools), schemas, pf).Success?
    requires DistinctSchemaKeys(SchemaOf(schemas, Validation(parsed, RegisteredMap(tools), schemas, pf).value.name).argSchema)
    ensures var tc := Validation(parsed, RegisteredMap(tools), schemas, pf).value;
      var schema := SchemaOf(schemas, tc.name);
      tc.name in tools && Lower(tc.name) == Lower(Strip(parsed.name))
      && (forall i :: 0 <= i < |schema.requiredArgs| ==> !AbsentOrEmpty(parsed.args, schema.requiredArgs[i]))
      && (forall k :: HasKey(tc.args, k) <==> HasKey(parsed.args, k))
      && (forall i :: 0 <= i < |schema.argSchema| && HasKey(parsed.args, schema.argSchema[i].0) ==>
            IsInstanceOfAny(Get(tc.args, schema.argSchema[i].0).value, schema.argSchema[i].1))
  {
    var tc := Validation(parsed, RegisteredMap(tools), schemas, pf).value;
    CoerceAllSound(SchemaOf(schemas, tc.name).argSchema, parsed.args, pf);
  }

  /** Unknown names are rejected; names that agree after strip and lower-casing are validated alike. */
  lemma ValidationByLowerName(p: ParsedTool, q: ParsedTool, registered: map<string, string>,
                              schemas: map<string, ToolSchema>, pf: string -> Option<string>)
    ensures Lower(Strip(p.name)) !in registered ==>
      Validation(p, registered, schemas, pf) == Failure("Unknown tool '" + Strip(p.name) + "'")
    ensures Lower(Strip(p.name)) == Lower(Strip(q.name)) && p.args == q.args ==>
      (Validation(p, registered, schemas, pf).Success? <==> Validation(q, registered, schemas, pf).Success?)
      && (Lower(Strip(p.name)) in registered ==>
            Validation(p, registered, schemas, pf) == Validation(q, registered, schemas, pf))
  {
    var kp := Lower(Strip(p.name));
    var kq := Lower(Strip(q.name));
    if kp == kq && p.args == q.args && kp in registered {
      assert Validation(p, registered, schemas, pf) == ValidateKnown(registered[kp], p.args, schemas, pf);
      assert Validation(q, registered, schemas, pf) == ValidateKnown(registered[kq], q.args, schemas, pf);
    }
  }

  // ===========================================================================
  // The strategy loop (extract_tool_calls)

  const StrategyCount := 4

  /** The payloads strategy `s` finds: 0 code fence, 1 raw JSON, 2 bracket matching, 3 repair. */
  function StrategyPayloads(text: string, o: Oracles, s: nat): seq<string>
    requires s < StrategyCount
  {
    if s == 0 then o.codeFence(text)
    else if s == 1 then o.rawJson(text)
    else if s == 2 then BracketCandidates(text)
    else RepairCandidates(text, o)
  }

  /** The valid calls among parsed tools, in order. */
  function ValidCalls(parsed: seq<ParsedTool>, registered: map<string, string>, schemas: map<string, ToolSchema>,
                      pf: string -> Option<string>): seq<ToolCall>
  {
    if parsed == [] then []
    else
      ValidCalls(parsed[..|parsed| - 1], registered, schemas, pf)
      + Accepted(parsed[|parsed| - 1], registered, schemas, pf)
  }

  /** The validated call of one parsed tool, or nothing. */
  function Accepted(p: ParsedTool, registered: map<string, string>, schemas: map<string, ToolSchema>,
                    pf: string -> Option<string>): seq<ToolCall>
  {
    match Validation(p, registered, schemas, pf)
    case Success(tc) => [tc]
    case Failure(_) => []
  }

  function CallsOfPayload(payload: string, registered: map<string, string>, schemas: map<string, ToolSchema>,
                          o: Oracles): seq<ToolCall>
  {
    match ParsedTools(payload, o)
    case Failure(_) => []
    case Success(parsed) => ValidCalls(parsed, registered, schemas, o.parseFloat)
  }

  /** The valid calls of a strategy's payloads, in payload order. */
  function CallsOfPayloads(payloads: seq<string>, registered: map<string, string>, schemas: map<string, ToolSchema>,
                           o: Oracles): seq<ToolCall>
  {
    if payloads == [] then []
    else
      CallsOfPayloads(payloads[..|payloads| - 1], registered, schemas, o)
      + CallsOfPayload(payloads[|payloads| - 1], registered, schemas, o)
  }

  function StrategyCalls(text: string, registered: map<string, string>, schemas: map<string, ToolSchema>,
                         o: Oracles, s: nat): seq<ToolCall>
    requires s < StrategyCount
  {
    CallsOfPayloads(StrategyPayloads(text, o, s), registered, schemas, o)
  }

  /** The first non-empty list, or `[]`. */
  function FirstNonEmpty<T>(rs: seq<seq<T>>): (r: seq<T>)
    ensures r == [] || r in rs
  {
    if rs == [] then []
    else if rs[0] != [] then rs[0]
    else FirstNonEmpty(rs[1..])
  }

  lemma {:induction false} FirstNonEmptyPicks<T>(rs: seq<seq<T>>, s: nat)
    requires s < |rs| && rs[s] != []
    requires forall t :: 0 <= t < s ==> rs[t] == []
    ensures FirstNonEmpty(rs) == rs[s]
  {
    if s > 0 {
      assert forall t :: 0 <= t < s - 1 ==> rs[1..][t] == rs[t + 1];
      FirstNonEmptyPicks(rs[1..], s - 1);
    }
  }

  lemma {:induction false} FirstNonEmptyOfEmpties<T>(rs: seq<seq<T>>)
    requires forall t :: 0 <= t < |rs| ==> rs[t] == []
    ensures FirstNonEmpty(rs) == []
  {
    if rs != [] {
      assert forall t :: 0 <= t < |rs| - 1 ==> rs[1..][t] == rs[t + 1];
      FirstNonEmptyOfEmpties(rs[1..]);
    }
  }

  lemma FirstNonEmptyStep<T>(rs: seq<seq<T>>, s: nat)
    requires s < |rs|
    ensures FirstNonEmpty(rs[s..]) == if rs[s] != [] then rs[s] else FirstNonEmpty(rs[s + 1..])
  {
    assert rs[s..][0] == rs[s];
    assert rs[s..][1..] == rs[s + 1..];
  }

  /** The valid calls of each strategy, in the order the strategies are tried. */
  function AllStrategyCalls(text: string, registered: map<string, string>, schemas: map<string, ToolSchema>,
                            o: Oracles): (rs: seq<seq<ToolCall>>)
    ensures |rs| == StrategyCount
  {
    seq(StrategyCount, s requires 0 <= s < StrategyCount => StrategyCalls(text, registered, schemas, o, s))
  }

  /** What `extract_tool_calls` returns: the calls of the first strategy that yields any. */
  function ExtractedCalls(text: string, tools: seq<string>, schemas: map<string, ToolSchema>, o: Oracles): seq<ToolCall> {
    FirstNonEmpty(AllStrategyCalls(text, RegisteredMap(tools), schemas, o))
  }

  method ValidCallsOf(parsed: seq<ParsedTool>, registered: map<string, string>, schemas: map<string, ToolSchema>,
                      pf: string -> Option<string>) returns (found: seq<ToolCall>)
    ensures found == ValidCalls(parsed, registered, schemas, pf)
  {
    found := [];
    var j := 0;
    while j < |parsed|
      invariant 0 <= j <= |parsed|
      invariant found == ValidCalls(parsed[..j], registered, schemas, pf)
    {
      ValidCallsSnoc(parsed, j, registered, schemas, pf);
      var tc := ValidateToolCall(parsed[j], registered, schemas, pf);
      if tc.Success? {
        found := found + [tc.value];
      }
      j := j + 1;
    }
    assert parsed[..j] == parsed;
  }

  lemma ValidCallsSnoc(parsed: seq<ParsedTool>, j: nat, registered: map<string, string>,
                       schemas: map<string, ToolSchema>, pf: string -> Option<string>)
    requires j < |parsed|
    ensures ValidCalls(parsed[..j + 1], registered, schemas, pf)
      == ValidCalls(parsed[..j], registered, schemas, pf) + Accepted(parsed[j], registered, schemas, pf)
  {
    assert parsed[..j + 1][..j] == parsed[..j];
  }

  method CallsFromPayloads(payloads: seq<string>, registered: map<string, string>, schemas: map<string, ToolSchema>,
                           o: Oracles) returns (results: seq<ToolCall>)
    ensures results == CallsOfPayloads(payloads, registered, schemas, o)
  {
    results := [];
    var i := 0;
    while i < |payloads|
      invariant 0 <= i <= |payloads|
      invariant results == CallsOfPayloads(payloads[..i], registered, schemas, o)
    {
      CallsOfPayloadsSnoc(payloads, i, registered, schemas, o);
      var found := CallsFromPayload(payloads[i], registered, schemas, o);
      results := results + found;
      i := i + 1;
    }
    assert payloads[..i] == payloads;
  }

  lemma CallsOfPayloadsSnoc(payloads: seq<string>, i: nat, registered: map<string, string>,
                            schemas: map<string, ToolSchema>, o: Oracles)
    requires i < |payloads|
    ensures CallsOfPayloads(payloads[..i + 1], registered, schemas, o)
      == CallsOfPayloads(payloads[..i], registered, schemas, o) + CallsOfPayload(payloads[i], registered, schemas, o)
  {
    assert payloads[..i + 1][..i] == payloads[..i];
  }

  /** One payload: parse it, then keep its valid calls; a payload that does not parse yields none. */
  method CallsFromPayload(payload: string, registered: map<string, string>, schemas: map<string, ToolSchema>,
                          o: Oracles) returns (found: seq<ToolCall>)
    ensures found == CallsOfPayload(payload, registered, schemas, o)
  {
    var parsed := ParsePayload(payload, o);
    found := [];
    if parsed.Success? {
      found := ValidCallsOf(parsed.value, registered, schemas, o.parseFloat);
    }
  }

  method ExtractToolCalls(text: string, tools: seq<string>, schemas: map<string, ToolSchema>, o: Oracles)
    returns (results: seq<ToolCall>)
    ensures results == ExtractedCalls(text, tools, schemas, o)
  {
    var registered := RegisteredMap(tools);
    ghost var all := AllStrategyCalls(text, registered, schemas, o);
    ghost var target := ExtractedCalls(text, tools, schemas, o);
    assert all[0..] == all;
    results := [];
    var s := 0;
    while s < StrategyCount && results == []
      invariant 0 <= s <= StrategyCount
      invariant results == [] ==> target == FirstNonEmpty(all[s..])
      invariant results != [] ==> target == results
    {
      results := RunStrategy(text, registered, schemas, o, s);
      FirstNonEmptyStep(all, s);
      s := s + 1;
    }
    if results == [] {
      assert all[s..] == [];
    }
  }

  /** One strategy of the loop: its payloads, then their valid calls. */
  method RunStrategy(text: string, registered: map<string, string>, schemas: map<string, ToolSchema>, o: Oracles, s: nat)
    returns (results: seq<ToolCall>)
    requires s < StrategyCount
    ensures results == StrategyCalls(text, registered, schemas, o, s)
  {
    var payloads: seq<string>;
    if s == 0 {
      payloads := o.codeFence(text);
    } else if s == 1 {
      payloads := o.rawJson(text);
    } else if s == 2 {
      payloads := ExtractWithBracketMatching(text);
    } else {
      payloads := ExtractWithRepair(text, o);
    }
    results := CallsFromPayloads(payloads, registered, schemas, o);
  }

  /** `extract_tool_call`: the first extracted call, if any. */
  method ExtractToolCall(text: string, tools: seq<string>, schemas: map<string, ToolSchema>, o: Oracles)
    returns (r: Option<ToolCall>)
    ensures var calls := ExtractedCalls(text, tools, schemas, o);
      r == if calls == [] then None else Some(calls[0])
  {
    var calls := ExtractToolCalls(text, tools, schemas, o);
    r := if calls == [] then None else Some(calls[0]);
  }

  /**
   * Strategies are tried in order: the result is the full list of valid calls
   * of the first strategy that yields any, and `[]` when none does.
   */
  lemma FirstYieldingStrategyWins(text: string, tools: seq<string>, schemas: map<string, ToolSchema>,
                                  o: Oracles, s: nat)
    requires s < StrategyCount
    requires StrategyCalls(text, RegisteredMap(tools), schemas, o, s) != []
    requires forall t :: 0 <= t < s ==> StrategyCalls(text, RegisteredMap(tools), schemas, o, t) == []
    ensures ExtractedCalls(text, tools, schemas, o) == StrategyCalls(text, RegisteredMap(tools), schemas, o, s)
  {
    FirstNonEmptyPicks(AllStrategyCalls(text, RegisteredMap(tools), schemas, o), s);
  }

  lemma NoStrategyYieldsNothing(text: string, tools: seq<string>, schemas: map<string, ToolSchema>, o: Oracles)
    requires forall t :: 0 <= t < StrategyCount ==> StrategyCalls(text, RegisteredMap(tools), schemas, o, t) == []
    ensures ExtractedCalls(text, tools, schemas, o) == []
  {
    FirstNonEmptyOfEmpties(AllStrategyCalls(text, RegisteredMap(tools), schemas, o));
  }

  /** Every call `ValidCalls` keeps passed validation. */
  lemma {:induction false} ValidCallsValidated(parsed: seq<ParsedTool>, registered: map<string, string>,
                                              schemas: map<string, ToolSchema>, pf: string -> Option<string>)
    ensures forall c :: c in ValidCalls(parsed, registered, schemas, pf) ==>
      exists p :: p in parsed && Validation(p, registered, schemas, pf) == Success(c)
  {
    if parsed != [] {
      var init := parsed[..|parsed| - 1];
      var last := parsed[|parsed| - 1];
      ValidCallsValidated(init, registered, schemas, pf);
      assert ValidCalls(parsed, registered, schemas, pf)
        == ValidCalls(init, registered, schemas, pf) + Accepted(last, registered, schemas, pf);
      forall c | c in ValidCalls(parsed, registered, schemas, pf)
        ensures exists p :: p in parsed && Validation(p, registered, schemas, pf) == Success(c)
      {
        if c in ValidCalls(init, registered, schemas, pf) {
          var p :| p in init && Validation(p, registered, schemas, pf) == Success(c);
          assert p in parsed;
        } else {
          AcceptedMeans(last, registered, schemas, pf, c);
          assert last in parsed;
        }
      }
    }
  }

  lemma AcceptedMeans(p: ParsedTool, registered: map<string, string>, schemas: map<string, ToolSchema>,
                      pf: string -> Option<string>, c: ToolCall)
    ensures c in Accepted(p, registered, schemas, pf) <==> Validation(p, registered, schemas, pf) == Success(c)
  {
  }

  /** Every call a strategy yields is the validation of some normalised payload. */
  lemma {:induction false} CallsOfPayloadsValidated(payloads: seq<string>, registered: map<string, string>,
                                                   schemas: map<string, ToolSchema>, o: Oracles)
    ensures forall c :: c in CallsOfPayloads(payloads, registered, schemas, o) ==>
      exists p :: Validation(p, registered, schemas, o.parseFloat) == Success(c)
  {
    if payloads != [] {
      CallsOfPayloadsValidated(payloads[..|payloads| - 1], registered, schemas, o);
      var last := payloads[|payloads| - 1];
      match ParsedTools(last, o)
      case Failure(_) =>
      case Success(parsed) => ValidCallsValidated(parsed, registered, schemas, o.parseFloat);
    }
  }

  /** Only the registered spelling of a tool name survives validation. */
  lemma ValidatedNameRegistered(p: ParsedTool, tools: seq<string>, schemas: map<string, ToolSchema>,
                                pf: string -> Option<string>)
    requires Validation(p, RegisteredMap(tools), schemas, pf).Success?
    ensures Validation(p, RegisteredMap(tools), schemas, pf).value.name in tools
  {
  }

  /** Each call names a registered tool and is the validation of some parsed tool. */
  ghost predicate CallsValidated(calls: seq<ToolCall>, tools: seq<string>, schemas: map<string, ToolSchema>,
                                 pf: string -> Option<string>)
  {
    forall c :: c in calls ==>
      c.name in tools && exists p :: Validation(p, RegisteredMap(tools), schemas, pf) == Success(c)
  }

  lemma StrategyCallsValidated(text: string, tools: seq<string>, schemas: map<string, ToolSchema>, o: Oracles, s: nat)
    requires s < StrategyCount
    ensures CallsValidated(StrategyCalls(text, RegisteredMap(tools), schemas, o, s), tools, schemas, o.parseFloat)
  {
    var reg := RegisteredMap(tools);
    CallsOfPayloadsValidated(StrategyPayloads(text, o, s), reg, schemas, o);
    forall c | c in StrategyCalls(text, reg, schemas, o, s)
      ensures c.name in tools
    {
      var p :| Validation(p, reg, schemas, o.parseFloat) == Success(c);
      ValidatedNameRegistered(p, tools, schemas, o.parseFloat);
    }
  }

  /** Every extracted call names a registered tool and passed validation. */
  lemma ExtractedCallsValid(text: string, tools: seq<string>, schemas: map<string, ToolSchema>, o: Oracles)
    ensures CallsValidated(ExtractedCalls(text, tools, schemas, o), tools, schemas, o.parseFloat)
  {
    var all := AllStrategyCalls(text, RegisteredMap(tools), schemas, o);
    var r := FirstNonEmpty(all);
    if r != [] {
      var s :| 0 <= s < |all| && all[s] == r;
      StrategyCallsValidated(text, tools, schemas, o, s);
    }
  }
}
