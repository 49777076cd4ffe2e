/** What a prepared request carries besides its input, told from the client's own words. */
module ToolContents {
  import opened Sequences
  import opened Wrappers
  import opened Values
  import opened RequestMapper
  import opened Registry
  import opened ChatService
  import opened ToolAccounting

  // ----- the names that are bridged -----

  const WEB_SEARCH_NAMES := {"web_search", "search_web", "browser_search"}

  /** A bridged name belongs to one of the two searches, and tells where its query may stand. */
  lemma BridgeTable(name: string)
    ensures FindBridge(name) ==
            if name in WEB_SEARCH_NAMES then Some(BridgeSpec(WebSearchTool, ["query", "q", "text"]))
            else if name == "file_search" then Some(BridgeSpec(FileSearchTool, ["query", "queries", "q", "text"]))
            else None
  {
  }

  predicate TakenOver(t: ToolSpec) {
    t.name in WEB_SEARCH_NAMES || t.name == "file_search"
  }

  /** The client's tools that stay its own. */
  function Own(tools: seq<ToolSpec>): seq<ToolSpec> {
    if tools == [] then []
    else
      var t := tools[|tools| - 1];
      Own(tools[..|tools| - 1]) + if TakenOver(t) then [] else [t]
  }

  // ----- custom tools -----

  /** The prepared tool tells everything the client told of it, and fills in what was left open. */
  predicate Describes(tool: Value, t: ToolSpec) {
    && tool.Dict? && tool.fields.Keys == {"type", "name", "description", "parameters", "strict"}
    && Get(tool, "type") == Str("function")
    && Get(tool, "name") == Str(t.name)
    && (if t.description.Some? then Get(tool, "description") == Str(t.description.value)
        else Get(tool, "description") == Str(""))
    && (Truthy(t.parameters) ==> Get(tool, "parameters") == t.parameters)
    && (!Truthy(t.parameters) ==>
        Get(tool, "parameters") == Dict(map["type" := Str("object"), "properties" := Dict(map[])]))
    && (Get(tool, "strict") == Bool(true) <==> t.strict == Some(true))
    && (Get(tool, "strict") == Bool(false) <==> t.strict != Some(true))
  }

  predicate AllDescribed(tools: seq<Value>, specs: seq<ToolSpec>) {
    |tools| == |specs| && forall i | 0 <= i < |specs| :: Describes(tools[i], specs[i])
  }

  lemma CustomDescribed(t: ToolSpec)
    ensures AllDescribed(CustomTool(t), if TakenOver(t) then [] else [t])
  {
    BridgeTable(t.name);
    hide FindBridge;
  }

  lemma {:induction false} CustomToolsDescribed(tools: seq<ToolSpec>)
    ensures AllDescribed(FlatMap(CustomTool, tools), Own(tools))
  {
    if tools != [] {
      var before, t := tools[..|tools| - 1], tools[|tools| - 1];
      CustomToolsDescribed(before);
      CustomDescribed(t);
      hide Describes, CustomTool, TakenOver;
    }
  }

  // ----- built-in tools -----

  /** A built-in tool with every field of the client's configuration, of its own type unless that says otherwise. */
  predicate Carries(tool: Value, kind: string, config: map<string, Value>) {
    && tool.Dict?
    && (forall k | k in config :: k in tool.fields && tool.fields[k] == config[k])
    && (forall k | k in tool.fields :: k in config || k in {"type", "container"})
    && ("type" !in config ==> Get(tool, "type") == Str(kind))
  }

  /** The client's interpreter configuration; true alone configures nothing. */
  function InterpreterConfig(cfg: BuiltinConfig): map<string, Value> {
    if cfg.codeInterpreter.Dict? then cfg.codeInterpreter.fields else map[]
  }

  predicate WebSearchGiven(tool: Value) {
    tool == Dict(map["type" := Str("web_search")])
  }

  predicate FileSearchGiven(tool: Value, config: map<string, Value>) {
    Carries(tool, "file_search", config) && ("container" in tool.fields ==> "container" in config)
  }

  predicate InterpreterGiven(tool: Value, config: map<string, Value>) {
    && Carries(tool, "code_interpreter", config)
    && ("container" !in config ==> Get(tool, "container") == Dict(map["type" := Str("auto")]))
  }

  /** The built-in tools at the end of the list: web search if wanted, then file search, then the interpreter. */
  predicate BuiltinsGiven(tools: seq<Value>, web: bool, client: Option<BuiltinConfig>) {
    var file, code := WantsFileSearch(client), WantsInterpreter(client);
    && |tools| == (if web then 1 else 0) + (if file then 1 else 0) + (if code then 1 else 0)
    && (web ==> WebSearchGiven(tools[0]))
    && (file ==> FileSearchGiven(tools[if web then 1 else 0], client.value.fileSearch))
    && (code ==> InterpreterGiven(tools[|tools| - 1], InterpreterConfig(client.value)))
  }

  lemma EnabledGiven(client: Option<BuiltinConfig>, executions: seq<BridgeExecution>)
    ensures var cfg := EnableAll(client, executions);
            BuiltinsGiven(BuiltinTools(cfg), WantsWebSearch(client) || Uses(executions, WebSearchTool), client)
  {
    EnableAllEffect(client, executions);
    var cfg := EnableAll(client, executions);
    hide EnableAll, Uses;
    if cfg.Some? {
      ToolsGiven(cfg.value);
      hide WebSearchTools, FileSearchTools, InterpreterTools;
    }
  }

  lemma ToolsGiven(cfg: BuiltinConfig)
    ensures cfg.webSearch ==> WebSearchGiven(WebSearchTools(cfg)[0])
    ensures cfg.fileSearch != map[] ==> FileSearchGiven(FileSearchTools(cfg)[0], cfg.fileSearch)
    ensures Truthy(cfg.codeInterpreter) ==> InterpreterGiven(InterpreterTools(cfg)[0], InterpreterConfig(cfg))
  {
  }

  // ----- the include list -----

  /** What is asked for beyond the items themselves, each once and nothing else. */
  predicate Included(includes: seq<string>, web: bool, webResults: bool, client: Option<BuiltinConfig>) {
    && Unique(includes)
    && ("web_search_call.action.sources" in includes <==> web)
    && ("web_search_call.results" in includes <==> web && webResults)
    && ("file_search_call.results" in includes <==> WantsFileSearch(client))
    && ("code_interpreter_call.outputs" in includes <==> WantsInterpreter(client))
    && "reasoning.encrypted_content" in includes
    && forall entry | entry in includes ::
         entry in {"web_search_call.action.sources", "web_search_call.results", "file_search_call.results",
                   "code_interpreter_call.outputs", "reasoning.encrypted_content"}
  }

  lemma EntriesDiffer()
    ensures Unique(["web_search_call.action.sources", "web_search_call.results", "file_search_call.results",
                    "code_interpreter_call.outputs", "reasoning.encrypted_content"])
  {
  }

  lemma EnabledIncluded(client: Option<BuiltinConfig>, executions: seq<BridgeExecution>, webResults: bool)
    ensures Included(IncludeList(EnableAll(client, executions), webResults),
                     WantsWebSearch(client) || Uses(executions, WebSearchTool), webResults, client)
  {
    EnableAllEffect(client, executions);
    hide EnableAll, Uses;
    EntriesDiffer();
  }

  // ----- the theorem -----

  /**
   A prepared request names the client's model, or else the default one. It carries the client's own tools in order,
   each with all it was described with, and then the built-in tools with the client's configuration of them.
   */
  lemma {:induction false} PreparedCarries(req: Request, loads: Loads, svc: Service)
    requires Prepare(req, loads, svc).Ok?
    ensures var p, own := Prepare(req, loads, svc).value, Own(req.tools);
            var web := WantsWebSearch(req.builtins) || Bridges(req, loads, WebSearchTool);
            && p.model == (if req.model == None || req.model == Some("") then svc.defaultModel else req.model.value)
            && |own| <= |p.tools|
            && AllDescribed(p.tools[..|own|], own)
            && BuiltinsGiven(p.tools[|own|..], web, req.builtins)
            && Included(p.includes, web, svc.webResults, req.builtins)
  {
    var executions := Executions(req, loads);
    PreparedTools(req, loads, svc);
    PreparedModel(req, loads, svc);
    hide FlatMap, Prepare, Executions, AllDescribed, BuiltinsGiven, Included, EnableAll, BuiltinTools, IncludeList;
    hide Bridges, Uses, Own, WantsWebSearch;
    CustomToolsDescribed(req.tools);
    OneEach(FlatMap(CustomTool, req.tools), Own(req.tools));
    ExecutionsUse(req, loads, WebSearchTool);
    EnabledGiven(req.builtins, executions);
    EnabledIncluded(req.builtins, executions, svc.webResults);
  }

  lemma OneEach(tools: seq<Value>, specs: seq<ToolSpec>)
    requires AllDescribed(tools, specs)
    ensures |tools| == |specs|
  {
  }

  lemma PreparedModel(req: Request, loads: Loads, svc: Service)
    requires Prepare(req, loads, svc).Ok?
    ensures Prepare(req, loads, svc).value.model ==
            if req.model == None || req.model == Some("") then svc.defaultModel else req.model.value
  {
    hide FlatMap, Executions, EnableAll, BuiltinTools, IncludeList, BridgedCalls, TranslateAll, Compatible;
  }

  // ----- what a bridged answer becomes -----

  /** The call that a bridged id stands for: the last one that bears it with a bridged name. */
  lemma {:induction false} LastCallWins(calls: seq<ChatCall>, loads: Loads, id: string, i: nat)
    requires i < |calls| && id != "" && calls[i].id == Some(id) && calls[i].name.Some? && Bridged(calls[i].name)
    requires forall j | i < j < |calls| && calls[j].id == Some(id) :: !Bridged(calls[j].name)
    ensures id in Collected(calls, loads)
    ensures var prior, parsed := Collected(calls, loads)[id], loads(Parseable(calls[i]));
            && prior.name == calls[i].name.value && Some(prior.spec) == FindBridge(prior.name)
            && prior.arguments == if parsed.Some? && parsed.value.Dict? then parsed.value else Dict(map[])
  {
    var n := |calls| - 1;
    hide FindBridge;
    if i < n {
      LastCallWins(calls[..n], loads, id, i);
    }
  }

  /** An assistant's call of a bridged tool, under an id. */
  predicate Searches(m: Message, c: ChatCall, id: string) {
    && m.role == Assistant && c in m.toolCalls && c.id == Some(id) && id != ""
    && c.name.Some? && (c.name.value in WEB_SEARCH_NAMES || c.name.value == "file_search")
  }

  /** An id is bridged iff an assistant calls a bridged tool under it. */
  lemma BridgedIff(ms: seq<Message>, loads: Loads, id: string)
    ensures id in BridgedCalls(ms, loads) <==> exists m, c :: m in ms && Searches(m, c, id)
  {
    CollectedKeys(FlatMap(CallsOf, ms), loads, id);
    hide FindBridge, Collected, FlatMap;
    if id in BridgedCalls(ms, loads) {
      var c :| c in FlatMap(CallsOf, ms) && BridgesCall(c) && c.id.value == id;
      BridgeTable(c.name.value);
      FlatMapMember(CallsOf, ms, c);
      var m :| m in ms && c in CallsOf(m);
      assert Searches(m, c, id);
    }
    if m, c :| m in ms && Searches(m, c, id) {
      BridgeTable(c.name.value);
      FlatMapMember(CallsOf, ms, c);
      assert c in CallsOf(m) && BridgesCall(c);
    }
  }

  /** The arguments that are parsed: the call's own, or an empty object when it has none. */
  function Parseable(c: ChatCall): Value {
    if c.arguments.Some? && Truthy(c.arguments.value) then c.arguments.value else Str("{}")
  }

  /** The record of a tool definition that a built-in takes over. */
  function TakeOver(t: ToolSpec): seq<BridgeExecution> {
    if TakenOver(t) then
      [BridgeExecution(if t.name == "file_search" then FileSearchTool else WebSearchTool, Some(t.name), None)]
    else []
  }

  lemma {:induction false} ToolsRecorded(tools: seq<ToolSpec>)
    ensures FlatMap(ToolExecution, tools) == FlatMap(TakeOver, tools)
  {
    if tools != [] {
      var before, t := tools[..|tools| - 1], tools[|tools| - 1];
      ToolsRecorded(before);
      FlatMapSnoc(ToolExecution, tools);
      FlatMapSnoc(TakeOver, tools);
      hide FlatMap;
      BridgeTable(t.name);
      hide FindBridge;
    }
  }

  /** The object a tool message holds, parsed or as it is; nothing when it holds none. */
  function Payload(content: Value, loads: Loads): Value {
    if IsStr(content) then
      if loads(content).Some? && loads(content).value.Dict? then loads(content).value else Dict(map[])
    else if content.Dict? then content
    else Dict(map[])
  }

  /**
   A tool message is replaced iff it answers a bridged call or, without one, bears a bridged name. Its record has the
   tool and name of the call, or else of the message, and the query of the call's arguments, or else of the message's
   content; the user then asks for the query if there is one. Any other tool message is forwarded.
   */
  lemma AnswerBecomesSearch(m: Message, bridged: map<string, Prior>, loads: Loads)
    requires m.role == Tool
    ensures var called := m.toolCallId.Some? && m.toolCallId.value in bridged;
            var web, file := m.name.Some? && m.name.value in WEB_SEARCH_NAMES, m.name == Some("file_search");
            if !called && !web && !file then
              Forward(m, bridged) == [m] && Ask(m, bridged, loads) == [] && Execution(m, bridged, loads) == []
            else
              var spec := if called then bridged[m.toolCallId.value].spec
                          else if web then BridgeSpec(WebSearchTool, ["query", "q", "text"])
                          else BridgeSpec(FileSearchTool, ["query", "queries", "q", "text"]);
              var arguments := if called then bridged[m.toolCallId.value].arguments else Dict(map[]);
              var asked := ExtractBridgeQuery(arguments, spec.queryCandidates);
              var query := if asked.Some? then asked
                           else ExtractBridgeQuery(Payload(m.content, loads), spec.queryCandidates);
              var name := if called then Some(bridged[m.toolCallId.value].name) else m.name;
              && Forward(m, bridged) == []
              && Execution(m, bridged, loads) == [BridgeExecution(spec.tool, name, query)]
              && Ask(m, bridged, loads) == if query.Some? then [SearchRequest(spec.tool, query.value)] else []
  {
    if m.name.Some? { BridgeTable(m.name.value); }
    hide FindBridge, ExtractBridgeQuery;
  }

  function SearchRequest(tool: Builtin, query: string): Value {
    Dict(map["role" := Str("user"),
             "content" := Str(match tool
                              case WebSearchTool => "Use web search to answer this query: " + query
                              case FileSearchTool => "Use file search to answer this query: " + query)])
  }

  /** The record of a prepared request: first the tool definitions taken over, then the answers replaced, in order. */
  lemma PreparedRecords(req: Request, loads: Loads, svc: Service)
    requires Prepare(req, loads, svc).Ok?
    ensures Prepare(req, loads, svc).value.executions ==
            FlatMap(TakeOver, req.tools) + FlatMap(Executes(BridgedCalls(req.messages, loads), loads), req.messages)
  {
    ToolsRecorded(req.tools);
    hide FlatMap, EnableAll, BuiltinTools, IncludeList, BridgedCalls, TranslateAll, Compatible;
  }
}
