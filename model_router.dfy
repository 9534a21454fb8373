/**
 * The model router (agent/model_router.py): it picks an Ollama model per
 * request from a route key. The key comes from the previous tool's affinity
 * or, failing that, from the latest user message. The router then falls back
 * to the default model and finally to the chat model when a chosen model is
 * not installed.
 */
module ModelRouter {
  import opened Wrappers
  import opened Text
  import opened JsonValues
  import Models

  /** `config.model_router` together with `config.chat_model.model_name`. */
  datatype RouterConfig = RouterConfig(
    enabled: bool,
    routes: map<string, string>,
    toolAffinity: map<string, string>,
    chatModel: string)

  /**
   * The keyword regular expressions of `_looks_like_code` and
   * `_looks_like_summary`, which the model leaves uninterpreted.
   */
  datatype Heuristics = Heuristics(codeKeyword: string -> bool, fileExtension: string -> bool,
                                   summaryKeyword: string -> bool)

  /** `routes.get("default") or chat_model.model_name` */
  function DefaultModel(config: RouterConfig): (m: string)
    ensures "default" in config.routes && config.routes["default"] != [] ==> m == config.routes["default"]
    ensures !("default" in config.routes && config.routes["default"] != []) ==> m == config.chatModel
  {
    if "default" in config.routes && config.routes["default"] != [] then config.routes["default"] else config.chatModel
  }

  predicate IsUserMessage(message: Dict) {
    Get(message, "role") == Some(JStr("user"))
  }

  /** The position of the last user-role message, scanning from the end as `reversed(messages)` does. */
  function LastUserIndex(messages: seq<Dict>): (j: Option<nat>)
    ensures j.Some? ==> j.value < |messages|
  {
    if messages == [] then None
    else if IsUserMessage(messages[|messages| - 1]) then Some(|messages| - 1)
    else LastUserIndex(messages[..|messages| - 1])
  }

  /** The index found holds a user message and none follows it; no index means no user message at all. */
  lemma {:induction false} LastUserIndexSpec(messages: seq<Dict>)
    ensures var j := LastUserIndex(messages);
      (j.Some? ==> IsUserMessage(messages[j.value]) && forall i :: j.value < i < |messages| ==> !IsUserMessage(messages[i]))
      && (j.None? ==> forall i :: 0 <= i < |messages| ==> !IsUserMessage(messages[i]))
  {
    if messages != [] && !IsUserMessage(messages[|messages| - 1]) {
      var init := messages[..|messages| - 1];
      LastUserIndexSpec(init);
      assert forall i :: 0 <= i < |init| ==> init[i] == messages[i];
    }
  }

  /** `_last_user_message`: `str(message.get("content", ""))` of the last user message, or "". */
  function LastUserMessage(messages: seq<Dict>): string {
    match LastUserIndex(messages)
    case Some(j) => PyStr(GetOr(messages[j], "content", JStr("")))
    case None => ""
  }

  /** The content of the last user message is what is read, and "" when no message is from the user. */
  lemma LastUserMessageOf(messages: seq<Dict>, j: nat)
    requires j < |messages| && IsUserMessage(messages[j])
    requires forall i :: j < i < |messages| ==> !IsUserMessage(messages[i])
    ensures LastUserMessage(messages) == PyStr(GetOr(messages[j], "content", JStr("")))
  {
    LastUserIndexAt(messages, j);
  }

  lemma {:induction false} LastUserIndexAt(messages: seq<Dict>, j: nat)
    requires j < |messages| && IsUserMessage(messages[j])
    requires forall i :: j < i < |messages| ==> !IsUserMessage(messages[i])
    ensures LastUserIndex(messages) == Some(j)
  {
    if j < |messages| - 1 {
      var init := messages[..|messages| - 1];
      assert !IsUserMessage(messages[|messages| - 1]);
      assert init[j] == messages[j];
      assert forall i :: j < i < |init| ==> init[i] == messages[i];
      LastUserIndexAt(init, j);
    }
  }

  lemma NoUserMessage(messages: seq<Dict>)
    requires forall i :: 0 <= i < |messages| ==> !IsUserMessage(messages[i])
    ensures LastUserMessage(messages) == ""
  {
    LastUserIndexSpec(messages);
  }

  predicate LooksLikeCode(text: string, h: Heuristics) {
    Contains(text, "```") || h.codeKeyword(text) || h.fileExtension(text)
  }

  predicate LooksLikeSummary(text: string, h: Heuristics) {
    h.summaryKeyword(text)
  }

  /** `_route_from_tool`: the affinity of a non-empty tool name, if configured. */
  function RouteFromTool(config: RouterConfig, toolName: Option<string>): (r: Option<string>)
    ensures r.Some? <==> toolName.Some? && toolName.value != [] && toolName.value in config.toolAffinity
    ensures r.Some? ==> r.value == config.toolAffinity[toolName.value]
  {
    if toolName.None? || toolName.value == [] then None
    else if toolName.value in config.toolAffinity then Some(config.toolAffinity[toolName.value])
    else None
  }

  /** `_route_from_messages` */
  function RouteFromMessages(messages: seq<Dict>, h: Heuristics): (r: string)
    ensures r in {"default", "coding", "summarization", "reasoning"}
    ensures r == "default" <==> LastUserMessage(messages) == []
    ensures r == "coding" <==> LastUserMessage(messages) != [] && LooksLikeCode(LastUserMessage(messages), h)
    ensures r == "summarization" <==>
      LastUserMessage(messages) != [] && !LooksLikeCode(LastUserMessage(messages), h)
      && LooksLikeSummary(LastUserMessage(messages), h)
  {
    var text := LastUserMessage(messages);
    if text == [] then "default"
    else if LooksLikeCode(text, h) then "coding"
    else if LooksLikeSummary(text, h) then "summarization"
    else "reasoning"
  }

  /** The route key `select_model` settles on: a tool affinity wins whatever the messages say, then the message heuristics. */
  function RouteKey(config: RouterConfig, messages: seq<Dict>, lastToolName: Option<string>, h: Heuristics): (r: string)
    ensures lastToolName.Some? && lastToolName.value != [] && lastToolName.value in config.toolAffinity ==>
      r == config.toolAffinity[lastToolName.value]
    ensures !(lastToolName.Some? && lastToolName.value != [] && lastToolName.value in config.toolAffinity) ==>
      r == RouteFromMessages(messages, h)
  {
    match RouteFromTool(config, lastToolName)
    case Some(key) => key
    case None => RouteFromMessages(messages, h)
  }

  /** `_model_for_route`: an empty key or one without a route gives the default model. */
  function ModelForRoute(config: RouterConfig, routeKey: string): (m: string)
    ensures routeKey != [] && routeKey in config.routes ==> m == config.routes[routeKey]
    ensures !(routeKey != [] && routeKey in config.routes) ==> m == DefaultModel(config)
  {
    if routeKey == [] then DefaultModel(config)
    else if routeKey in config.routes then config.routes[routeKey]
    else DefaultModel(config)
  }

  /** `_is_available`, which asks `filter_missing_models([model], available)`. */
  function IsAvailable(model: string, available: Option<seq<string>>): bool {
    if model == [] then false
    else if available.None? then true
    else Models.MissingModels([model], available.value) == []
  }

  /** An empty name is never available, any name is when the model list is unknown, and otherwise the tag-aware match decides. */
  lemma IsAvailableMeans(model: string, available: Option<seq<string>>)
    ensures model == [] ==> !IsAvailable(model, available)
    ensures model != [] && available.None? ==> IsAvailable(model, available)
    ensures model != [] && available.Some? ==>
      (IsAvailable(model, available) <==> Models.ModelAvailable(model, available.value))
  {
    if model != [] && available.Some? {
      Models.MissingModelsIff([model], available.value, model);
      var missing := Models.MissingModels([model], available.value);
      if missing != [] {
        Models.MissingModelsIff([model], available.value, missing[0]);
      }
    }
  }

  /** The fallback chain of `select_model` once the router is enabled. */
  function Chosen(config: RouterConfig, routed: string, available: Option<seq<string>>): (m: string)
    ensures IsAvailable(m, available) || m == config.chatModel
    ensures IsAvailable(routed, available) ==> m == routed
    ensures !IsAvailable(routed, available) && IsAvailable(DefaultModel(config), available) ==> m == DefaultModel(config)
  {
    if IsAvailable(routed, available) then routed
    else if IsAvailable(DefaultModel(config), available) then DefaultModel(config)
    else config.chatModel
  }

  /** Once the installed models are known, the router picks an installed model (tags allowed) or the chat model. */
  lemma ChosenInstalledOrChat(config: RouterConfig, routed: string, installed: seq<string>)
    ensures var m := Chosen(config, routed, Some(installed));
      Models.ModelAvailable(m, installed) || m == config.chatModel
  {
    IsAvailableMeans(Chosen(config, routed, Some(installed)), Some(installed));
  }

  class Router {
    const config: RouterConfig
    const defaultModel: string
    var availableModels: Option<seq<string>>

    /** `ModelRouter(config, client)`: the model list is unknown until loaded. */
    constructor(config: RouterConfig)
      ensures this.config == config && defaultModel == DefaultModel(config) && availableModels.None?
    {
      this.config := config;
      defaultModel := DefaultModel(config);
      availableModels := None;
    }

    /** `set_available_models`: empty names are dropped. */
    method SetAvailableModels(models: seq<string>)
      modifies this
      ensures availableModels == Some(Models.NonEmptyNames(models))
    {
      var kept: seq<string> := [];
      var i := 0;
      while i < |models|
        invariant 0 <= i <= |models|
        invariant kept == Models.NonEmptyNames(models[..i])
      {
        assert models[..i + 1][..i] == models[..i];
        if models[i] != [] {
          kept := kept + [models[i]];
        }
        i := i + 1;
      }
      assert models[..i] == models;
      availableModels := Some(kept);
    }

    /**
     * `refresh_models`. `listed` is what `list_models` returned, each entry's
     * "name" (None when the key is absent), or None when it raised.
     */
    method RefreshModels(listed: Option<seq<Option<string>>>)
      modifies this
      ensures !config.enabled ==> availableModels == old(availableModels)
      ensures config.enabled && listed.None? ==> availableModels.None?
      ensures config.enabled && listed.Some? ==> availableModels == Some(ListedNames(listed.value))
    {
      if !config.enabled {
        return;
      }
      match listed {
        case None =>
          availableModels := None;
        case Some(entries) =>
          availableModels := Some(ListedNames(entries));
      }
    }

    /** `ensure_models_loaded`: refresh only when enabled and nothing is loaded yet. */
    method EnsureModelsLoaded(listed: Option<seq<Option<string>>>)
      modifies this
      ensures !config.enabled || old(availableModels).Some? ==> availableModels == old(availableModels)
      ensures config.enabled && old(availableModels).None? ==>
        availableModels == (if listed.Some? then Some(ListedNames(listed.value)) else None)
    {
      if !config.enabled {
        return;
      }
      if availableModels.Some? {
        return;
      }
      RefreshModels(listed);
    }

    /** `select_model(messages, last_tool_name)` */
    function SelectModel(messages: seq<Dict>, lastToolName: Option<string>, h: Heuristics): (m: string)
      reads this
      requires defaultModel == DefaultModel(config)
      ensures !config.enabled ==> m == config.chatModel
      ensures config.enabled ==>
        m == Chosen(config, ModelForRoute(config, RouteKey(config, messages, lastToolName, h)), availableModels)
    {
      if !config.enabled then config.chatModel
      else
        var routeKey := match RouteFromTool(config, lastToolName)
          case Some(key) => key
          case None => RouteFromMessages(messages, h);
        var model := ModelForRoute(config, routeKey);
        if IsAvailable(model, availableModels) then model
        else if IsAvailable(defaultModel, availableModels) then defaultModel
        else config.chatModel
    }
  }

  /** `[m.get("name", "") for m in models if m.get("name")]` */
  function ListedNames(entries: seq<Option<string>>): (r: seq<string>)
    ensures forall i :: 0 <= i < |r| ==> r[i] != []
    ensures forall x :: x in r <==> Some(x) in entries && x != []
  {
    if entries == [] then []
    else
      var last := entries[|entries| - 1];
      ListedNames(entries[..|entries| - 1]) + (if last.Some? && last.value != [] then [last.value] else [])
  }
}
