/**
 * The memory tool (tools/memory_tool.py): it checks its arguments, turns an
 * action into one call on the memory manager, and formats the reply. The
 * manager's answers (the search results, the deletion count) are
 * parameters, and so is the two-decimal formatting of a score.
 */
module MemoryTool {
  import opened Wrappers
  import opened Text
  import opened JsonValues

  /** The one memory-manager call an action makes. `k` and `threshold` come from the agent's configuration. */
  datatype MemoryCall =
    | Save(content: string, area: string)
    | Search(query: string, searchArea: Option<string>, k: int, threshold: real)
    | Delete(query: string, deleteArea: Option<string>)
    | Forget(forgetArea: string)

  /** Either the tool replies at once, or it calls the manager first. */
  datatype Step = Reply(message: string) | Call(op: MemoryCall)

  const NotInitialized := "[Memory system not initialized]"

  predicate IsSearch(action: string) {
    action == "search" || action == "query" || action == "recall"
  }

  predicate IsDelete(action: string) {
    action == "delete" || action == "remove"
  }

  /** `area if area != "all" else None`, used by search and delete only. */
  function AreaFilter(area: string): (r: Option<string>)
    ensures r.None? <==> area == "all"
  {
    if area == "all" then None else Some(area)
  }

  /** What `execute(action=…, text=…, area=…)` does before any manager call. */
  function Plan(hasManager: bool, action: string, text: string, area: string, k: int, threshold: real): Step {
    if !hasManager then Reply(NotInitialized)
    else if action == "save" then
      if IsBlank(text) then Reply("[Error: No text provided to save]") else Call(Save(text, area))
    else if IsSearch(action) then
      if IsBlank(text) then Reply("[Error: No search query provided]")
      else Call(Search(text, AreaFilter(area), k, threshold))
    else if IsDelete(action) then
      if IsBlank(text) then Reply("[Error: No deletion query provided]") else Call(Delete(text, AreaFilter(area)))
    else if action == "forget" then Call(Forget(area))
    else Reply("[Error: Unknown memory action '" + action + "'. Use: save, search, delete, or forget]")
  }

  /** One search result line; `score` formats a score with two decimals. */
  function ResultLine(r: Dict, score: Json -> string): string {
    "- [" + PyStr(GetOr(r, "area", JStr("?"))) + "] (score: " + score(GetOr(r, "score", JInt(0))) + ") "
    + PyStr(GetOr(r, "content", JStr("")))
  }

  function ResultLines(results: seq<Dict>, score: Json -> string): (lines: seq<string>) {
    if results == [] then [] else ResultLines(results[..|results| - 1], score) + [ResultLine(results[|results| - 1], score)]
  }

  function SearchReply(results: seq<Dict>, score: Json -> string): string {
    if results == [] then "No relevant memories found."
    else "Memories found:\n" + Join(ResultLines(results, score), "\n")
  }

  /** The reply after the manager answered: `results` from a search, `count` from a deletion. */
  function Answer(op: MemoryCall, results: seq<Dict>, count: nat, score: Json -> string): string {
    match op
    case Save(_, area) => "Saved to memory (area: " + area + ")"
    case Search(_, _, _, _) => SearchReply(results, score)
    case Delete(_, _) => "Deleted " + NatToString(count) + " memories matching query."
    case Forget(area) => "Cleared all memories in area: " + area
  }

  /** The tool's reply; the arguments default to action "search", text "" and area "main". */
  function Execute(hasManager: bool, action: Option<string>, text: Option<string>, area: Option<string>, k: int,
                   threshold: real, results: seq<Dict>, count: nat, score: Json -> string): string {
    var a := if action.Some? then action.value else "search";
    var t := if text.Some? then text.value else "";
    var ar := if area.Some? then area.value else "main";
    match Plan(hasManager, a, t, ar, k, threshold)
    case Reply(m) => m
    case Call(op) => Answer(op, results, count, score)
  }

  /** The result-formatting of the search action. */
  method FormatResults(results: seq<Dict>, score: Json -> string) returns (message: string)
    ensures message == SearchReply(results, score)
  {
    if results == [] {
      message := "No relevant memories found.";
    } else {
      var lines := FormatLines(results, score);
      message := "Memories found:\n" + Join(lines, "\n");
    }
  }

  /** The loop building one line per result, in order. */
  method FormatLines(results: seq<Dict>, score: Json -> string) returns (lines: seq<string>)
    ensures lines == ResultLines(results, score)
  {
    lines := [];
    var i := 0;
    while i < |results|
      invariant 0 <= i <= |results|
      invariant lines == ResultLines(results[..i], score)
    {
      ResultLinesSnoc(results, i, score);
      lines := lines + [ResultLine(results[i], score)];
      i := i + 1;
    }
    assert results[..i] == results;
  }

  lemma ResultLinesSnoc(results: seq<Dict>, i: nat, score: Json -> string)
    requires i < |results|
    ensures ResultLines(results[..i + 1], score) == ResultLines(results[..i], score) + [ResultLine(results[i], score)]
  {
    assert results[..i + 1][..i] == results[..i];
  }

  /** Without a manager nothing is called and the reply is the not-initialised note. */
  lemma NoManager(action: string, text: string, area: string, k: int, threshold: real)
    ensures Plan(false, action, text, area, k, threshold) == Reply(NotInitialized)
  {
  }

  /** Blank text for save, search or delete is an error reply, with no manager call. */
  lemma BlankTextNoCall(action: string, text: string, area: string, k: int, threshold: real)
    requires action == "save" || IsSearch(action) || IsDelete(action)
    requires IsBlank(text)
    ensures Plan(true, action, text, area, k, threshold).Reply?
    ensures Plan(true, action, text, area, k, threshold).message != NotInitialized
  {
  }

  /** "query" and "recall" are "search", "remove" is "delete"; the area "all" lifts the filter. */
  lemma Aliases(text: string, area: string, k: int, threshold: real)
    ensures Plan(true, "query", text, area, k, threshold) == Plan(true, "search", text, area, k, threshold)
    ensures Plan(true, "recall", text, area, k, threshold) == Plan(true, "search", text, area, k, threshold)
    ensures Plan(true, "remove", text, area, k, threshold) == Plan(true, "delete", text, area, k, threshold)
    ensures !IsBlank(text) ==> Plan(true, "search", text, "all", k, threshold) == Call(Search(text, None, k, threshold))
    ensures !IsBlank(text) ==> Plan(true, "delete", text, "all", k, threshold) == Call(Delete(text, None))
    ensures Plan(true, "forget", text, "all", k, threshold) == Call(Forget("all"))
    ensures Plan(true, "save", text, "all", k, threshold) == (if IsBlank(text) then Reply("[Error: No text provided to save]") else Call(Save(text, "all")))
  {
  }

  /** Without an action the tool searches; without text the query is blank. */
  lemma ExecuteDefaultAction(text: string, k: int, threshold: real, results: seq<Dict>, count: nat, score: Json -> string)
    ensures Execute(true, None, Some(text), None, k, threshold, results, count, score)
      == (if IsBlank(text) then "[Error: No search query provided]" else SearchReply(results, score))
    ensures Execute(true, Some("search"), None, None, k, threshold, results, count, score)
      == "[Error: No search query provided]"
  {
    assert IsSearch("search");
  }

  /** Without an area the tool saves to, and forgets, "main". */
  lemma ExecuteDefaultArea(text: string, k: int, threshold: real, results: seq<Dict>, count: nat, score: Json -> string)
    ensures Execute(true, Some("save"), Some(text), None, k, threshold, results, count, score)
      == (if IsBlank(text) then "[Error: No text provided to save]" else "Saved to memory (area: main)")
    ensures Execute(true, Some("forget"), None, None, k, threshold, results, count, score)
      == "Cleared all memories in area: main"
  {
    assert !IsSearch("forget") && !IsDelete("forget");
  }

  /** Any other action is an error reply naming the valid ones. */
  lemma UnknownAction(action: string, text: string, area: string, k: int, threshold: real)
    requires action != "save" && !IsSearch(action) && !IsDelete(action) && action != "forget"
    ensures Plan(true, action, text, area, k, threshold)
      == Reply("[Error: Unknown memory action '" + action + "'. Use: save, search, delete, or forget]")
  {
  }

  /** An empty search says so; otherwise the reply is the header and one line per result, in order. */
  lemma SearchReplyShape(results: seq<Dict>, score: Json -> string)
    ensures results == [] <==> SearchReply(results, score) == "No relevant memories found."
    ensures results != [] ==> StartsWith(SearchReply(results, score), "Memories found:\n")
  {
    if results != [] {
      var r := SearchReply(results, score);
      assert r[..16] == "Memories found:\n";
      assert r != "No relevant memories found." by {
        assert r[0] == 'M';
      }
    }
  }
}
