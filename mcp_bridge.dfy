/**
 * The MCP bridge (tools/mcp_bridge.py): it discovers the tools of the
 * configured MCP servers, gives each a name unique among the tools found so
 * far, maps its JSON schema onto argument types, and forwards calls. The
 * servers' JSON-RPC replies enter as parameters.
 */
module McpBridge {
  import opened Wrappers
  import opened Text
  import opened JsonValues

  // ===========================================================================
  // Argument types from JSON schemas

  /** The Python types `_map_json_type` can return. */
  datatype PyType = StrType | IntType | FloatType | BoolType | DictType | ListType | NoneType

  const TypeNames: map<string, PyType> := map[
    "string" := StrType, "integer" := IntType, "number" := FloatType, "boolean" := BoolType,
    "object" := DictType, "array" := ListType, "null" := NoneType]

  /**
   * `_map_json_type(spec.get("type"))`: the lookup `{...}.get(json_type or "", str)`.
   * An absent or falsy type, an unknown name and a hashable non-string all give
   * `str`; a non-empty list or object is unhashable and raises.
   */
  function MapJsonType(t: Option<Json>): (r: Result<PyType>)
    ensures t.Some? && t.value.JStr? && t.value.s in TypeNames ==> r == Success(TypeNames[t.value.s])
    ensures t.Some? && t.value.JStr? && t.value.s !in TypeNames ==> r == Success(StrType)
    ensures t.None? || !Truthy(t.value) ==> r == Success(StrType)
    ensures r.Failure? <==> t.Some? && (t.value.JArray? || t.value.JObject?) && Truthy(t.value)
  {
    if t.None? || !Truthy(t.value) then Success(StrType)
    else match t.value
      case JStr(s) => if s in TypeNames then Success(TypeNames[s]) else Success(StrType)
      case JArray(_) => Failure("unhashable type: 'list'")
      case JObject(_) => Failure("unhashable type: 'dict'")
      case _ => Success(StrType)
  }

  /** `list(v)`: a list's items, a string's characters, a dict's keys; anything else is not iterable. */
  function PyList(v: Json): (r: Result<seq<Json>>)
    ensures v.JArray? ==> r == Success(v.items)
    ensures r.Failure? <==> v.JNull? || v.JBool? || v.JInt? || v.JFloat?
  {
    match v
    case JArray(items) => Success(items)
    case JStr(s) => Success(seq(|s|, i requires 0 <= i < |s| => JStr([s[i]])))
    case JObject(fields) => Success(seq(|fields|, i requires 0 <= i < |fields| => JStr(fields[i].0)))
    case _ => Failure("object is not iterable")
  }

  /** The `arg_schema` loop of `_schema_to_args`: non-dict property specs are skipped. */
  function PropertyTypes(props: Dict): (r: Result<map<string, PyType>>)
    ensures r.Success? ==> forall p :: p in r.value ==> HasKey(props, p)
  {
    if props == [] then Success(map[])
    else
      var (prop, spec) := props[|props| - 1];
      match PropertyTypes(props[..|props| - 1])
      case Failure(e) => Failure(e)
      case Success(m) =>
        if !spec.JObject? then
          assert forall p :: p in m ==> HasKey(props, p) by { KeysPrefix(props); }
          Success(m)
        else
          match MapJsonType(Get(spec.fields, "type"))
          case Failure(e) => Failure(e)
          case Success(t) =>
            assert forall p :: p in m ==> HasKey(props, p) by { KeysPrefix(props); }
            assert HasKey(props, prop) by { assert Keys(props)[|props| - 1] == prop; }
            Success(m[prop := t])
  }

  /** Some entry of `props` names `p` and has a dict spec. */
  ghost predicate HasDictSpec(props: Dict, p: string) {
    exists i :: 0 <= i < |props| && props[i].0 == p && props[i].1.JObject?
  }

  /** Entry `i` is the last one named like it whose spec is a dict: the one the loop's `arg_schema[prop]` keeps. */
  ghost predicate LastDictSpec(props: Dict, i: int) {
    0 <= i < |props| && props[i].1.JObject?
    && forall j :: i < j < |props| && props[j].0 == props[i].0 ==> !props[j].1.JObject?
  }

  /** The loop raises exactly when the type of some dict spec raises. */
  lemma {:induction false} PropertyTypesFails(props: Dict)
    ensures PropertyTypes(props).Failure? <==>
      exists i :: 0 <= i < |props| && props[i].1.JObject? && MapJsonType(Get(props[i].1.fields, "type")).Failure?
  {
    if props != [] {
      var n := |props| - 1;
      var init := props[..n];
      PropertyTypesFails(init);
      if PropertyTypes(init).Failure? {
        var i :| 0 <= i < n && init[i].1.JObject? && MapJsonType(Get(init[i].1.fields, "type")).Failure?;
        assert props[i] == init[i];
      } else if !(props[n].1.JObject? && MapJsonType(Get(props[n].1.fields, "type")).Failure?) {
        forall i | 0 <= i < |props|
          ensures !(props[i].1.JObject? && MapJsonType(Get(props[i].1.fields, "type")).Failure?)
        {
          if i < n {
            assert init[i] == props[i];
          }
        }
      }
    }
  }

  /** A property is typed exactly when one of its specs is a dict: non-dict specs are skipped. */
  lemma {:induction false} PropertyTypesKeys(props: Dict)
    ensures PropertyTypes(props).Success? ==> forall p :: p in PropertyTypes(props).value <==> HasDictSpec(props, p)
  {
    if props != [] && PropertyTypes(props).Success? {
      var n := |props| - 1;
      var init := props[..n];
      PropertyTypesKeys(init);
      var m := PropertyTypes(init).value;
      var r := PropertyTypes(props).value;
      forall p ensures p in r <==> HasDictSpec(props, p) {
        if HasDictSpec(props, p) && !(p == props[n].0 && props[n].1.JObject?) {
          var i :| 0 <= i < |props| && props[i].0 == p && props[i].1.JObject?;
          assert i < n && init[i] == props[i];
        }
        if p in m {
          var i :| 0 <= i < n && init[i].0 == p && init[i].1.JObject?;
          assert props[i] == init[i];
        }
      }
    }
  }

  /** Each property's type is what `_map_json_type` gives for the "type" of its last dict spec. */
  lemma {:induction false} PropertyTypesValues(props: Dict)
    ensures PropertyTypes(props).Success? ==> forall i :: LastDictSpec(props, i) ==>
      props[i].0 in PropertyTypes(props).value
      && MapJsonType(Get(props[i].1.fields, "type")) == Success(PropertyTypes(props).value[props[i].0])
  {
    if props != [] && PropertyTypes(props).Success? {
      var n := |props| - 1;
      var init := props[..n];
      PropertyTypesValues(init);
      var r := PropertyTypes(props).value;
      forall i | LastDictSpec(props, i)
        ensures props[i].0 in r && MapJsonType(Get(props[i].1.fields, "type")) == Success(r[props[i].0])
      {
        if i < n {
          assert init[i] == props[i];
          assert LastDictSpec(init, i);
        }
      }
    }
  }

  /** A key of a dict's prefix is a key of the dict. */
  lemma KeysPrefix(props: Dict)
    requires props != []
    ensures forall p :: HasKey(props[..|props| - 1], p) ==> HasKey(props, p)
  {
    forall p | HasKey(props[..|props| - 1], p)
      ensures HasKey(props, p)
    {
      var ks := Keys(props[..|props| - 1]);
      var i :| 0 <= i < |ks| && ks[i] == p;
      assert Keys(props)[i] == p;
    }
  }

  /** `list(required or schema.get("required", []) or [])` */
  function RequiredArgs(schema: Dict, required: Json): Result<seq<Json>> {
    if Truthy(required) then PyList(required)
    else
      var fromSchema := GetOr(schema, "required", JArray([]));
      if Truthy(fromSchema) then PyList(fromSchema) else Success([])
  }

  /** `_schema_to_args(schema, required)` */
  function SchemaToArgs(schema: Json, required: Json): (r: Result<(map<string, PyType>, seq<Json>)>)
    ensures !schema.JObject? ==>
      r == (if Truthy(required) then match PyList(required)
              case Success(items) => Success((map[], items))
              case Failure(e) => Failure(e)
            else Success((map[], [])))
    ensures schema.JObject? && r.Success? && Truthy(required) && required.JArray? ==> r.value.1 == required.items
  {
    if !schema.JObject? then
      if Truthy(required) then
        match PyList(required)
        case Success(items) => Success((map[], items))
        case Failure(e) => Failure(e)
      else Success((map[], []))
    else
      var props := GetOr(schema.fields, "properties", JObject([]));
      if !props.JObject? then Failure("'properties' has no attribute 'items'")
      else
        match PropertyTypes(props.fields)
        case Failure(e) => Failure(e)
        case Success(argSchema) =>
          match RequiredArgs(schema.fields, required)
          case Failure(e) => Failure(e)
          case Success(req) => Success((argSchema, req))
  }

  /** A non-empty explicit required list wins over the schema's own "required". */
  lemma ExplicitRequiredWins(schema: Dict, items: seq<Json>)
    requires items != []
    ensures RequiredArgs(schema, JArray(items)) == Success(items)
  {
  }

  /** With no explicit list the schema's "required" list is used, and with neither the list is empty. */
  lemma SchemaRequiredUsed(schema: Dict, required: Json)
    requires !Truthy(required)
    ensures HasKey(schema, "required") && Get(schema, "required").value.JArray? && Get(schema, "required").value.items != [] ==>
      RequiredArgs(schema, required) == Success(Get(schema, "required").value.items)
    ensures !HasKey(schema, "required") ==> RequiredArgs(schema, required) == Success([])
  {
  }

  // ===========================================================================
  // Unique tool names

  function Prefixed(serverName: string, toolName: string): string {
    serverName + "." + toolName
  }

  /** `f"{prefixed}.{idx}"` */
  function Candidate(prefixed: string, n: nat): string {
    prefixed + "." + NatToString(n)
  }

  lemma CandidateInjective(prefixed: string, m: nat, n: nat)
    requires Candidate(prefixed, m) == Candidate(prefixed, n)
    ensures m == n
  {
    assert Candidate(prefixed, m)[|prefixed| + 1..] == NatToString(m);
    assert Candidate(prefixed, n)[|prefixed| + 1..] == NatToString(n);
    NatToStringInjective(m, n);
  }

  /** The names tried before index `idx`. */
  function Tried(prefixed: string, idx: nat): set<string> {
    set m | 2 <= m < idx :: Candidate(prefixed, m)
  }

  lemma {:induction false} TriedSize(prefixed: string, idx: nat)
    requires idx >= 2
    ensures |Tried(prefixed, idx)| == idx - 2
  {
    if idx == 2 {
      assert Tried(prefixed, idx) == {};
    } else {
      TriedSize(prefixed, idx - 1);
      var c := Candidate(prefixed, idx - 1);
      assert Tried(prefixed, idx) == Tried(prefixed, idx - 1) + {c};
      if c in Tried(prefixed, idx - 1) {
        var m :| 2 <= m < idx - 1 && c == Candidate(prefixed, m);
        CandidateInjective(prefixed, m, idx - 1);
        assert false;
      }
    }
  }

  lemma SubsetSize<T>(a: set<T>, b: set<T>)
    requires a <= b
    ensures |a| <= |b|
  {
    assert b == a + (b - a);
  }

  /** Only finitely many candidates can be taken: each one taken is in `existing`. */
  lemma TakenBound(prefixed: string, existing: set<string>, idx: nat)
    requires idx >= 2 && forall m :: 2 <= m < idx ==> Candidate(prefixed, m) in existing
    ensures idx - 2 <= |existing|
  {
    TriedSize(prefixed, idx);
    SubsetSize(Tried(prefixed, idx), existing);
  }

  /** The smallest index from `idx` on whose candidate is free. */
  function SmallestFree(prefixed: string, existing: set<string>, idx: nat): (n: nat)
    requires idx >= 2 && forall m :: 2 <= m < idx ==> Candidate(prefixed, m) in existing
    ensures n >= idx && Candidate(prefixed, n) !in existing
    ensures forall m :: 2 <= m < n ==> Candidate(prefixed, m) in existing
    decreases |existing| + 2 - idx
  {
    TakenBound(prefixed, existing, idx);
    if Candidate(prefixed, idx) !in existing then idx
    else
      TakenBound(prefixed, existing, idx + 1);
      SmallestFree(prefixed, existing, idx + 1)
  }

  /**
   * The name `_unique_tool_name` settles on: the original if free, else
   * "server.name" if free, else "server.name.N" for the smallest free N >= 2.
   */
  function UniqueName(toolName: string, serverName: string, existing: set<string>): (r: string)
    ensures r !in existing
    ensures toolName !in existing ==> r == toolName
    ensures toolName in existing && Prefixed(serverName, toolName) !in existing ==> r == Prefixed(serverName, toolName)
    ensures toolName in existing && Prefixed(serverName, toolName) in existing ==>
      exists n :: n >= 2 && r == Candidate(Prefixed(serverName, toolName), n)
                  && forall m :: 2 <= m < n ==> Candidate(Prefixed(serverName, toolName), m) in existing
  {
    var prefixed := Prefixed(serverName, toolName);
    if toolName !in existing then toolName
    else if prefixed !in existing then prefixed
    else Candidate(prefixed, SmallestFree(prefixed, existing, 2))
  }

  /** `_unique_tool_name(tool_name, server_name, existing)` */
  method UniqueToolName(toolName: string, serverName: string, existing: set<string>) returns (r: string)
    ensures r == UniqueName(toolName, serverName, existing)
  {
    if toolName !in existing {
      return toolName;
    }
    var prefixed := serverName + "." + toolName;
    if prefixed !in existing {
      return prefixed;
    }
    var idx: nat := 2;
    while prefixed + "." + NatToString(idx) in existing
      invariant idx >= 2 && forall m :: 2 <= m < idx ==> Candidate(prefixed, m) in existing
      invariant SmallestFree(prefixed, existing, idx) == SmallestFree(prefixed, existing, 2)
      decreases |existing| + 2 - idx
    {
      TakenBound(prefixed, existing, idx + 1);
      idx := idx + 1;
    }
    r := prefixed + "." + NatToString(idx);
  }

  /** The second server's "read_file" becomes "beta.read_file". */
  lemma SecondServerPrefixed()
    ensures UniqueName("read_file", "beta", {"read_file"}) == "beta.read_file"
  {
    assert Prefixed("beta", "read_file") == "beta.read_file";
    assert "beta.read_file" != "read_file" by { assert |"beta.read_file"| != |"read_file"|; }
  }

  // ===========================================================================
  // Servers and clients

  /** `MCPServerConfig` */
  datatype ServerConfig = ServerConfig(name: string, transport: string, url: Option<string>, sendUrl: Option<string>)

  predicate Given(s: Option<string>) {
    s.Some? && s.value != []
  }

  /** `MCPSseClient._send_url` */
  function SendUrl(server: ServerConfig): (r: Result<string>)
    ensures Given(server.sendUrl) ==> r == Success(server.sendUrl.value)
    ensures !Given(server.sendUrl) && !Given(server.url) ==>
      r == Failure("MCP SSE server '" + server.name + "' missing url")
    ensures !Given(server.sendUrl) && Given(server.url) && EndsWith(server.url.value, "/sse") ==>
      r == Success(server.url.value[..|server.url.value| - 4] + "/message")
    ensures !Given(server.sendUrl) && Given(server.url) && !EndsWith(server.url.value, "/sse") ==>
      r == Success(RStripChar(server.url.value, '/') + "/message")
  {
    if Given(server.sendUrl) then Success(server.sendUrl.value)
    else if !Given(server.url) then Failure("MCP SSE server '" + server.name + "' missing url")
    else
      var url := server.url.value;
      if EndsWith(url, "/sse") then
        Success(url[..|url| - 4] + "/message")
      else Success(RStripChar(url, '/') + "/message")
  }

  /** A tool as `list_tools` describes it. */
  datatype ToolSpec = ToolSpec(name: string, description: string, inputSchema: Json, required: Json)

  /** The tools of one `tools/list` entry that is a dict. */
  function SpecOf(tool: Dict): ToolSpec {
    var schema := GetOr(tool, "inputSchema", JObject([]));
    var raw := Get(tool, "inputSchema");
    ToolSpec(PyStr(GetOr(tool, "name", JStr(""))),
             PyStr(GetOr(tool, "description", JStr(""))),
             if Truthy(schema) then schema else JObject([]),
             if raw.Some? && raw.value.JObject? then GetOr(raw.value.fields, "required", JArray([])) else JArray([]))
  }

  /** The dict entries with a truthy name, in order. */
  function NamedSpecs(tools: seq<Json>): (r: seq<ToolSpec>)
    ensures |r| <= |tools|
    ensures forall i :: 0 <= i < |r| ==> r[i].name != []
  {
    if tools == [] then []
    else
      var t := tools[|tools| - 1];
      NamedSpecs(tools[..|tools| - 1])
      + (if t.JObject? && Truthy(GetOr(t.fields, "name", JStr(""))) && PyStr(GetOr(t.fields, "name", JStr(""))) != []
         then [SpecOf(t.fields)] else [])
  }

  /**
   * `list_tools` on the `tools/list` response: non-dict entries and entries
   * with an empty name are dropped; a non-iterable "tools" raises.
   */
  function ListTools(response: Json): (r: Result<seq<ToolSpec>>)
    ensures !response.JObject? ==> r == Success([])
    ensures r.Success? ==> forall i :: 0 <= i < |r.value| ==> r.value[i].name != []
  {
    if !response.JObject? then Success([])
    else
      match GetOr(response.fields, "tools", JArray([]))
      case JArray(items) => Success(NamedSpecs(items))
      case JStr(_) => Success([])
      case JObject(_) => Success([])
      case _ => Failure("object is not iterable")
  }

  /** `call_tool`: the "content" of a dict response, else the response itself. */
  function CallToolResult(response: Json): (r: Json)
    ensures response.JObject? && HasKey(response.fields, "content") ==> r == Get(response.fields, "content").value
    ensures !(response.JObject? && HasKey(response.fields, "content")) ==> r == response
  {
    if response.JObject? && HasKey(response.fields, "content") then Get(response.fields, "content").value else response
  }

  /** The request state of an `MCPClient`. */
  class McpClient {
    const server: ServerConfig
    var initialized: bool
    var requestId: nat

    constructor(server: ServerConfig)
      ensures this.server == server && !initialized && requestId == 0
    {
      this.server := server;
      initialized := false;
      requestId := 0;
    }

    /** `_next_id`: 1, 2, 3, ... */
    method NextId() returns (id: nat)
      modifies this
      ensures id == old(requestId) + 1 && requestId == id
      ensures initialized == old(initialized)
    {
      requestId := requestId + 1;
      id := requestId;
    }

    /**
     * `initialize`: once only, one `initialize` request (which takes a
     * request id) and an `initialized` notification (which does not).
     * `outcome` is how the transport behaved this time.
     */
    method Initialize(outcome: InitOutcome)
      modifies this
      ensures old(initialized) ==> initialized && requestId == old(requestId)
      ensures !old(initialized) ==>
        requestId == old(requestId) + (if outcome == RaisedBeforeId then 0 else 1)
        && (initialized <==> outcome == Completed)
    {
      if initialized {
        return;
      }
      if outcome == RaisedBeforeId {
        return;
      }
      var _ := NextId();
      if outcome == Completed {
        initialized := true;
      }
    }
  }

  /**
   * How one `initialize` call went: the request raised before `_next_id`
   * (the stdio process could not be started or has no pipes), raised
   * after it (no answer, an error answer, or a failed POST), the
   * notification raised after the answer, or everything completed.
   */
  datatype InitOutcome = RaisedBeforeId | RaisedAfterId | NotifyRaised | Completed

  /** Only a completed exchange initialises the client, and a second call sends nothing. */
  method InitializeTwice(client: McpClient) returns (first: nat, second: nat)
    requires !client.initialized
    modifies client
    ensures first == old(client.requestId) + 1 && second == first && client.initialized
  {
    client.Initialize(Completed);
    first := client.requestId;
    client.Initialize(RaisedAfterId);
    second := client.requestId;
  }

  /** Ids handed out by successive `_next_id` calls increase strictly. */
  method NextIds(client: McpClient) returns (a: nat, b: nat)
    modifies client
    ensures a == old(client.requestId) + 1 && b == a + 1 && client.requestId == b
  {
    a := client.NextId();
    b := client.NextId();
  }

  // ===========================================================================
  // Discovery

  /** A discovered tool class: its unique name, origin, description and argument schema. */
  datatype McpTool = McpTool(name: string, serverName: string, specName: string, description: string,
                             argSchema: map<string, PyType>, requiredArgs: seq<Json>)

  /** The tools found so far and `_tool_map` (tool name to server name and MCP tool name). */
  datatype Discovery = Discovery(tools: map<string, McpTool>, toolMap: map<string, (string, string)>)

  /** `_build_tool_class`, after it has recorded the tool in `_tool_map`. */
  function BuildTool(toolName: string, serverName: string, spec: ToolSpec): (r: Result<McpTool>)
    ensures r.Success? ==> r.value.name == toolName && r.value.serverName == serverName && r.value.specName == spec.name
  {
    match SchemaToArgs(spec.inputSchema, spec.required)
    case Failure(e) => Failure(e)
    case Success((argSchema, required)) =>
      Success(McpTool(toolName, serverName, spec.name, Strip("[MCP:" + serverName + "] " + spec.description),
                      argSchema, required))
  }

  /** The inner loop of `discover_tools` for one server; the first tool whose class cannot be built ends it. */
  function AddSpecs(d: Discovery, serverName: string, specs: seq<ToolSpec>): Discovery
    decreases |specs|
  {
    if specs == [] then d
    else
      var spec := specs[0];
      var name := UniqueName(spec.name, serverName, d.tools.Keys);
      var toolMap := d.toolMap[name := (serverName, spec.name)];
      match BuildTool(name, serverName, spec)
      case Failure(_) => Discovery(d.tools, toolMap)
      case Success(tool) => AddSpecs(Discovery(d.tools[name := tool], toolMap), serverName, specs[1..])
  }

  /** The outer loop of `discover_tools`: a server whose initialisation or listing failed adds nothing. */
  function DiscoverFrom(d: Discovery, servers: seq<ServerConfig>, listed: seq<Result<seq<ToolSpec>>>): Discovery
    requires |listed| == |servers|
    decreases |servers|
  {
    if servers == [] then d
    else
      var next := match listed[0]
        case Failure(_) => d
        case Success(specs) => AddSpecs(d, servers[0].name, specs);
      DiscoverFrom(next, servers[1..], listed[1..])
  }

  /** Every tool is filed under its own name and `_tool_map` says where it comes from. */
  predicate Consistent(d: Discovery) {
    forall k :: k in d.tools ==>
      d.tools[k].name == k && k in d.toolMap && d.toolMap[k] == (d.tools[k].serverName, d.tools[k].specName)
  }

  /** One server's tools never replace a tool found earlier, and the bookkeeping stays consistent. */
  lemma {:induction false} AddSpecsKeeps(d: Discovery, serverName: string, specs: seq<ToolSpec>)
    requires Consistent(d)
    ensures var r := AddSpecs(d, serverName, specs);
      Consistent(r) && d.tools.Keys <= r.tools.Keys && forall k :: k in d.tools ==> r.tools[k] == d.tools[k]
    decreases |specs|
  {
    if specs != [] {
      var spec := specs[0];
      var name := UniqueName(spec.name, serverName, d.tools.Keys);
      var toolMap := d.toolMap[name := (serverName, spec.name)];
      match BuildTool(name, serverName, spec) {
        case Failure(_) =>
        case Success(tool) =>
          var d' := Discovery(d.tools[name := tool], toolMap);
          AddSpecsKeeps(d', serverName, specs[1..]);
      }
    }
  }

  /** Tools found on earlier servers survive every later server, failing or not. */
  lemma {:induction false} DiscoverKeeps(d: Discovery, servers: seq<ServerConfig>, listed: seq<Result<seq<ToolSpec>>>)
    requires |listed| == |servers| && Consistent(d)
    ensures var r := DiscoverFrom(d, servers, listed);
      Consistent(r) && d.tools.Keys <= r.tools.Keys && forall k :: k in d.tools ==> r.tools[k] == d.tools[k]
    decreases |servers|
  {
    if servers != [] {
      match listed[0] {
        case Failure(_) =>
          DiscoverKeeps(d, servers[1..], listed[1..]);
        case Success(specs) =>
          AddSpecsKeeps(d, servers[0].name, specs);
          DiscoverKeeps(AddSpecs(d, servers[0].name, specs), servers[1..], listed[1..]);
      }
    }
  }

  /** A failing server is skipped: discovery comes out as if it were not configured. */
  lemma {:induction false} FailingServerSkipped(d: Discovery, servers: seq<ServerConfig>,
                                                listed: seq<Result<seq<ToolSpec>>>, k: nat)
    requires |listed| == |servers| && k < |servers| && listed[k].Failure?
    ensures DiscoverFrom(d, servers, listed) == DiscoverFrom(d, servers[..k] + servers[k + 1..], listed[..k] + listed[k + 1..])
    decreases k
  {
    if k == 0 {
      assert servers[..0] + servers[1..] == servers[1..];
      assert listed[..0] + listed[1..] == listed[1..];
    } else {
      var next := match listed[0]
        case Failure(_) => d
        case Success(specs) => AddSpecs(d, servers[0].name, specs);
      FailingServerSkipped(next, servers[1..], listed[1..], k - 1);
      var s' := servers[..k] + servers[k + 1..];
      var l' := listed[..k] + listed[k + 1..];
      assert s'[0] == servers[0] && l'[0] == listed[0];
      assert s'[1..] == servers[1..][..k - 1] + servers[1..][k..];
      assert l'[1..] == listed[1..][..k - 1] + listed[1..][k..];
    }
  }

  /** `MCPBridge`: the configured servers and the `_tool_map` discovery fills. */
  class Bridge {
    const enabled: bool
    const servers: seq<ServerConfig>
    var toolMap: map<string, (string, string)>

    constructor(enabled: bool, servers: seq<ServerConfig>)
      ensures this.enabled == enabled && this.servers == servers && toolMap == map[]
    {
      this.enabled := enabled;
      this.servers := servers;
      toolMap := map[];
    }

    /**
     * `discover_tools`. `listed[i]` is what initialising server `i` and
     * listing its tools gave: the specs, or the error raised.
     */
    method DiscoverTools(listed: seq<Result<seq<ToolSpec>>>) returns (tools: map<string, McpTool>)
      requires |listed| == |servers|
      modifies this
      ensures !enabled ==> tools == map[] && toolMap == old(toolMap)
      ensures enabled ==> Discovery(tools, toolMap) == DiscoverFrom(Discovery(map[], old(toolMap)), servers, listed)
    {
      tools := map[];
      if !enabled {
        return;
      }
      var i := 0;
      while i < |servers|
        invariant 0 <= i <= |servers|
        invariant DiscoverFrom(Discovery(tools, toolMap), servers[i..], listed[i..])
                  == DiscoverFrom(Discovery(map[], old(toolMap)), servers, listed)
      {
        assert servers[i..][1..] == servers[i + 1..] && listed[i..][1..] == listed[i + 1..];
        match listed[i] {
          case Failure(_) =>
          case Success(specs) =>
            tools := AddServerTools(servers[i].name, specs, tools);
        }
        i := i + 1;
      }
    }

    /** The `for spec in tool_list` loop for one server. */
    method AddServerTools(serverName: string, specs: seq<ToolSpec>, tools: map<string, McpTool>)
      returns (tools': map<string, McpTool>)
      modifies this
      ensures Discovery(tools', toolMap) == AddSpecs(Discovery(tools, old(toolMap)), serverName, specs)
    {
      tools' := tools;
      var j := 0;
      var failed := false;
      while j < |specs| && !failed
        invariant 0 <= j <= |specs|
        invariant !failed ==>
          AddSpecs(Discovery(tools', toolMap), serverName, specs[j..])
          == AddSpecs(Discovery(tools, old(toolMap)), serverName, specs)
        invariant failed ==> Discovery(tools', toolMap) == AddSpecs(Discovery(tools, old(toolMap)), serverName, specs)
      {
        assert specs[j..][0] == specs[j] && specs[j..][1..] == specs[j + 1..];
        var spec := specs[j];
        var name := UniqueToolName(spec.name, serverName, tools'.Keys);
        toolMap := toolMap[name := (serverName, spec.name)];
        match BuildTool(name, serverName, spec) {
          case Failure(_) =>
            failed := true;
          case Success(tool) =>
            tools' := tools'[name := tool];
        }
        j := j + 1;
      }
    }

    /** `_find_server`: the first configured server with that name. */
    function FindServer(name: string): (r: Option<nat>)
      ensures r.Some? ==> r.value < |servers| && servers[r.value].name == name
                          && forall i :: 0 <= i < r.value ==> servers[i].name != name
      ensures r.None? ==> forall i :: 0 <= i < |servers| ==> servers[i].name != name
    {
      FirstNamed(servers, name, 0)
    }

    /**
     * `call_tool(server_name, tool_name, args)`. `response` is the server's
     * reply to `tools/call` (or the error raised on the way).
     */
    function CallTool(serverName: string, response: Result<Json>): (r: Result<Json>)
      ensures FindServer(serverName).None? ==> r == Failure("MCP server '" + serverName + "' not configured")
      ensures FindServer(serverName).Some? && response.Success? ==> r == Success(CallToolResult(response.value))
      ensures FindServer(serverName).Some? && response.Failure? ==> r == response
    {
      if FindServer(serverName).None? then Failure("MCP server '" + serverName + "' not configured")
      else match response
        case Success(v) => Success(CallToolResult(v))
        case Failure(e) => Failure(e)
    }
  }

  function FirstNamed(servers: seq<ServerConfig>, name: string, from: nat): (r: Option<nat>)
    requires from <= |servers|
    ensures r.Some? ==> from <= r.value < |servers| && servers[r.value].name == name
                        && forall i :: from <= i < r.value ==> servers[i].name != name
    ensures r.None? ==> forall i :: from <= i < |servers| ==> servers[i].name != name
    decreases |servers| - from
  {
    if from == |servers| then None
    else if servers[from].name == name then Some(from)
    else FirstNamed(servers, name, from + 1)
  }

  /** `_format_result`: dicts and lists through `json.dumps(..., indent=2)`, anything else through `str`. */
  function FormatResult(result: Json, dumps: Json -> string): string {
    if result.JObject? || result.JArray? then dumps(result) else PyStr(result)
  }

  /** `MCPTool.execute`: the formatted result, or the error wrapped with the tool's name. */
  function ExecuteMessage(toolName: string, outcome: Result<Json>, dumps: Json -> string): (m: string)
    ensures outcome.Failure? ==> m == "[MCP tool '" + toolName + "' error: " + outcome.error + "]"
    ensures outcome.Success? && outcome.value.JStr? ==> m == outcome.value.s
    ensures outcome.Success? && (outcome.value.JObject? || outcome.value.JArray?) ==> m == dumps(outcome.value)
  {
    match outcome
    case Success(v) => FormatResult(v, dumps)
    case Failure(e) => "[MCP tool '" + toolName + "' error: " + e + "]"
  }
}
