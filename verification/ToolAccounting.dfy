/** Which tools and include entries a prepared request carries. */
module ToolAccounting {
  import opened Sequences
  import opened Wrappers
  import opened Values
  import opened RequestMapper
  import opened Registry
  import opened ChatService

  /** A tool definition or a tool message of the request is bridged to `tool`. */
  predicate Bridges(req: Request, loads: Loads, tool: Builtin) {
    var bridged := BridgedCalls(req.messages, loads);
    || (exists t :: t in req.tools && FindBridge(t.name).Some? && FindBridge(t.name).value.tool == tool)
    || (exists m :: m in req.messages && Replaced(m, bridged) && SpecFor(m, bridged).value.tool == tool)
  }

  predicate WantsWebSearch(cfg: Option<BuiltinConfig>) {
    cfg.Some? && cfg.value.webSearch
  }

  predicate WantsFileSearch(cfg: Option<BuiltinConfig>) {
    cfg.Some? && cfg.value.fileSearch != map[]
  }

  predicate WantsInterpreter(cfg: Option<BuiltinConfig>) {
    cfg.Some? && Truthy(cfg.value.codeInterpreter)
  }

  predicate Uses(executions: seq<BridgeExecution>, tool: Builtin) {
    exists e :: e in executions && e.tool == tool
  }

  /** A bridge can turn web search on; it never turns file search on, and it turns nothing off. */
  lemma {:induction false} EnableAllEffect(cfg: Option<BuiltinConfig>, executions: seq<BridgeExecution>)
    ensures var cfg' := EnableAll(cfg, executions);
            && (WantsWebSearch(cfg') <==> WantsWebSearch(cfg) || Uses(executions, WebSearchTool))
            && (WantsFileSearch(cfg') <==> WantsFileSearch(cfg))
            && (WantsFileSearch(cfg) ==> cfg'.value.fileSearch == cfg.value.fileSearch)
            && (cfg.Some? ==> cfg'.Some? && cfg'.value.codeInterpreter == cfg.value.codeInterpreter)
            && (WantsInterpreter(cfg') <==> WantsInterpreter(cfg))
  {
    if executions != [] {
      var before, e := executions[..|executions| - 1], executions[|executions| - 1];
      assert executions == before + [e];
      EnableAllEffect(cfg, before);
    }
  }

  lemma ExecutionsUse(req: Request, loads: Loads, tool: Builtin)
    ensures Uses(Executions(req, loads), tool) <==> Bridges(req, loads, tool)
  {
    var bridged := BridgedCalls(req.messages, loads);
    if Uses(Executions(req, loads), tool) {
      var e :| e in Executions(req, loads) && e.tool == tool;
      FlatMapMember(ToolExecution, req.tools, e);
      FlatMapMember(Executes(bridged, loads), req.messages, e);
    }
    if t :| t in req.tools && FindBridge(t.name).Some? && FindBridge(t.name).value.tool == tool {
      FlatMapMember(ToolExecution, req.tools, ToolExecution(t)[0]);
      assert ToolExecution(t)[0] in Executions(req, loads);
    }
    if m :| m in req.messages && Replaced(m, bridged) && SpecFor(m, bridged).value.tool == tool {
      FlatMapMember(Executes(bridged, loads), req.messages, Execution(m, bridged, loads)[0]);
      assert Execution(m, bridged, loads)[0] in Executions(req, loads);
    }
  }

  function OfType(t: string): Value -> seq<Value> {
    (v: Value) => if Get(v, "type") == Str(t) then [v] else []
  }

  function CountType(tools: seq<Value>, t: string): nat {
    |FlatMap(OfType(t), tools)|
  }

  /** The client's own configuration does not replace the type of a built-in tool. */
  predicate KeepsTypes(cfg: Option<BuiltinConfig>) {
    cfg.Some? ==>
      && "type" !in cfg.value.fileSearch
      && (cfg.value.codeInterpreter.Dict? ==> "type" !in cfg.value.codeInterpreter.fields)
  }

  lemma SingletonCount(v: Value, t: string)
    ensures CountType([v], t) == if Get(v, "type") == Str(t) then 1 else 0
  {
    FlatMapOne(OfType(t), v);
  }

  lemma CustomToolCount(spec: ToolSpec, t: string)
    requires t != "function"
    ensures CountType(CustomTool(spec), t) == 0
  {
    if FindBridge(spec.name).None? {
      var tool := CustomTool(spec)[0];
      assert Get(tool, "type") == Str("function") && CustomTool(spec) == [tool];
      hide CountType, FindBridge, CustomTool, Get;
      SingletonCount(tool, t);
    } else {
      FlatMapNone(OfType(t));
      hide FlatMap;
    }
  }

  lemma {:induction false} CustomToolsCount(tools: seq<ToolSpec>, t: string)
    requires t != "function"
    ensures CountType(FlatMap(CustomTool, tools), t) == 0
  {
    if tools != [] {
      CustomToolsCount(tools[..|tools| - 1], t);
      CustomToolCount(tools[|tools| - 1], t);
      FlatMapAppend(OfType(t), FlatMap(CustomTool, tools[..|tools| - 1]), CustomTool(tools[|tools| - 1]));
    }
  }

  lemma WebSearchCount(cfg: BuiltinConfig, t: string)
    ensures CountType(WebSearchTools(cfg), t) == if cfg.webSearch && t == "web_search" then 1 else 0
  {
    if cfg.webSearch { SingletonCount(WebSearchTools(cfg)[0], t); }
  }

  lemma FileSearchCount(cfg: BuiltinConfig, t: string)
    requires "type" !in cfg.fileSearch
    ensures CountType(FileSearchTools(cfg), t) == if cfg.fileSearch != map[] && t == "file_search" then 1 else 0
  {
    if cfg.fileSearch != map[] { SingletonCount(FileSearchTools(cfg)[0], t); }
  }

  lemma InterpreterCount(cfg: BuiltinConfig, t: string)
    requires cfg.codeInterpreter.Dict? ==> "type" !in cfg.codeInterpreter.fields
    ensures CountType(InterpreterTools(cfg), t) ==
            if Truthy(cfg.codeInterpreter) && t == "code_interpreter" then 1 else 0
  {
    if Truthy(cfg.codeInterpreter) { SingletonCount(InterpreterTools(cfg)[0], t); }
  }

  predicate Wants(cfg: Option<BuiltinConfig>, t: string) {
    || (t == "web_search" && WantsWebSearch(cfg))
    || (t == "file_search" && WantsFileSearch(cfg))
    || (t == "code_interpreter" && WantsInterpreter(cfg))
  }

  lemma BuiltinToolsCount(cfg: Option<BuiltinConfig>, t: string)
    requires KeepsTypes(cfg)
    ensures CountType(BuiltinTools(cfg), t) == if Wants(cfg, t) then 1 else 0
  {
    if cfg.Some? {
      var web, file, code := WebSearchTools(cfg.value), FileSearchTools(cfg.value), InterpreterTools(cfg.value);
      FlatMapAppend(OfType(t), web + file, code);
      FlatMapAppend(OfType(t), web, file);
      WebSearchCount(cfg.value, t);
      FileSearchCount(cfg.value, t);
      InterpreterCount(cfg.value, t);
      assert "web_search" != "file_search" && "web_search" != "code_interpreter" && "file_search" != "code_interpreter";
    }
  }

  function NamesOf(tools: seq<ToolSpec>): seq<Value> {
    FlatMap((t: ToolSpec) => if FindBridge(t.name).Some? then [] else [Str(t.name)], tools)
  }

  function NameOf(tool: Value): seq<Value> {
    [Get(tool, "name")]
  }

  lemma CustomToolName(t: ToolSpec)
    ensures FlatMap(NameOf, CustomTool(t)) == if FindBridge(t.name).Some? then [] else [Str(t.name)]
  {
    if CustomTool(t) != [] {
      FlatMapOne(NameOf, CustomTool(t)[0]);
    }
  }

  lemma {:induction false} CustomToolNames(tools: seq<ToolSpec>)
    ensures FlatMap(NameOf, FlatMap(CustomTool, tools)) == NamesOf(tools)
  {
    if tools != [] {
      var before, t := tools[..|tools| - 1], tools[|tools| - 1];
      CustomToolNames(before);
      FlatMapAppend(NameOf, FlatMap(CustomTool, before), CustomTool(t));
      CustomToolName(t);
      hide CustomTool, NameOf;
    }
  }

  /**
   The custom tools that are not bridged come first and in order; a web_search tool is there, once, exactly when the
   configuration or a bridge asks for it; a file_search tool exactly when the client configured one, bridged or not;
   and each base include entry is there exactly when its tool is.
   */
  lemma ToolsAccountedFor(req: Request, loads: Loads, svc: Service)
    requires Prepare(req, loads, svc).Ok? && KeepsTypes(req.builtins)
    ensures var p := Prepare(req, loads, svc).value;
            var custom := FlatMap(CustomTool, req.tools);
            && custom <= p.tools && FlatMap(NameOf, custom) == NamesOf(req.tools)
            && CountType(p.tools, "web_search") ==
               (if WantsWebSearch(req.builtins) || Bridges(req, loads, WebSearchTool) then 1 else 0)
            && CountType(p.tools, "file_search") == (if WantsFileSearch(req.builtins) then 1 else 0)
            && CountType(p.tools, "code_interpreter") == (if WantsInterpreter(req.builtins) then 1 else 0)
            && ("web_search_call.action.sources" in p.includes <==> CountType(p.tools, "web_search") == 1)
            && ("file_search_call.results" in p.includes <==> CountType(p.tools, "file_search") == 1)
            && ("code_interpreter_call.outputs" in p.includes <==> CountType(p.tools, "code_interpreter") == 1)
            && "reasoning.encrypted_content" in p.includes
  {
    hide FlatMap, Executions, EnableAll, BuiltinTools, IncludeList, Prepare, Uses, Bridges, NamesOf, CountType;
    hide WantsWebSearch, WantsFileSearch, WantsInterpreter;
    var custom, executions := FlatMap(CustomTool, req.tools), Executions(req, loads);
    var cfg := EnableAll(req.builtins, executions);
    EnabledFrom(req.builtins, executions);
    ExecutionsUse(req, loads, WebSearchTool);
    CustomToolNames(req.tools);
    PreparedTools(req, loads, svc);
    BuiltinsCounted(custom, cfg, req.tools);
    IncludesFollow(cfg, svc.webResults);
  }

  lemma EnabledFrom(cfg: Option<BuiltinConfig>, executions: seq<BridgeExecution>)
    requires KeepsTypes(cfg)
    ensures var cfg' := EnableAll(cfg, executions);
            && KeepsTypes(cfg')
            && (WantsWebSearch(cfg') <==> WantsWebSearch(cfg) || Uses(executions, WebSearchTool))
            && (WantsFileSearch(cfg') <==> WantsFileSearch(cfg))
            && (WantsInterpreter(cfg') <==> WantsInterpreter(cfg))
  {
    EnableAllEffect(cfg, executions);
    hide EnableAll, Uses;
  }

  lemma BuiltinsCounted(custom: seq<Value>, cfg: Option<BuiltinConfig>, tools: seq<ToolSpec>)
    requires custom == FlatMap(CustomTool, tools) && KeepsTypes(cfg)
    ensures var all := custom + BuiltinTools(cfg);
            && CountType(all, "web_search") == (if WantsWebSearch(cfg) then 1 else 0)
            && CountType(all, "file_search") == (if WantsFileSearch(cfg) then 1 else 0)
            && CountType(all, "code_interpreter") == (if WantsInterpreter(cfg) then 1 else 0)
  {
    TypesCounted(custom, cfg, tools, "web_search");
    TypesCounted(custom, cfg, tools, "file_search");
    TypesCounted(custom, cfg, tools, "code_interpreter");
    hide FlatMap, BuiltinTools, CountType, KeepsTypes, WantsWebSearch, WantsFileSearch, WantsInterpreter;
  }

  lemma PreparedTools(req: Request, loads: Loads, svc: Service)
    requires Prepare(req, loads, svc).Ok?
    ensures var p, cfg := Prepare(req, loads, svc).value, EnableAll(req.builtins, Executions(req, loads));
            && p.tools == FlatMap(CustomTool, req.tools) + BuiltinTools(cfg)
            && p.includes == IncludeList(cfg, svc.webResults)
  {
    hide FlatMap, Executions, EnableAll, BuiltinTools, IncludeList, BridgedCalls, TranslateAll, Compatible;
  }

  lemma TypesCounted(custom: seq<Value>, cfg: Option<BuiltinConfig>, tools: seq<ToolSpec>, t: string)
    requires custom == FlatMap(CustomTool, tools) && KeepsTypes(cfg) && t != "function"
    ensures CountType(custom + BuiltinTools(cfg), t) == if Wants(cfg, t) then 1 else 0
  {
    FlatMapAppend(OfType(t), custom, BuiltinTools(cfg));
    CustomToolsCount(tools, t);
    BuiltinToolsCount(cfg, t);
  }

  lemma IncludesFollow(cfg: Option<BuiltinConfig>, webResults: bool)
    ensures var includes := IncludeList(cfg, webResults);
            && ("web_search_call.action.sources" in includes <==> WantsWebSearch(cfg))
            && ("file_search_call.results" in includes <==> WantsFileSearch(cfg))
            && ("code_interpreter_call.outputs" in includes <==> WantsInterpreter(cfg))
            && "reasoning.encrypted_content" in includes
  {
  }

  // ----- a bridge that enables nothing -----

  const FILE_SEARCH_SPEC := ToolSpec("file_search", None, Null, None, false)

  const FILE_SEARCH_ONLY :=
    Request(Auto, [], [], [FILE_SEARCH_SPEC], None, None, 1, false, false, false, false, false, None)

  /** The custom file_search tool is bridged, so it is gone, and no built-in takes its place. */
  lemma BridgedFileSearchVanishes(loads: Loads, svc: Service)
    ensures Bridges(FILE_SEARCH_ONLY, loads, FileSearchTool)
    ensures var p := Prepare(FILE_SEARCH_ONLY, loads, svc); p.Ok? && p.value.tools == []
  {
    var req := FILE_SEARCH_ONLY;
    assert FILE_SEARCH_SPEC in req.tools;
    FlatMapOne(CustomTool, FILE_SEARCH_SPEC);
    EnableAllEffect(None, Executions(req, loads));
    NothingToTranslate(loads, svc);
    PreparedTools(req, loads, svc);
    NoWebSearch(loads);
    hide FlatMap, EnableAll, Executions, Prepare, Uses;
  }

  lemma NothingToTranslate(loads: Loads, svc: Service)
    ensures Prepare(FILE_SEARCH_ONLY, loads, svc).Ok?
  {
    assert Compatible(FILE_SEARCH_ONLY);
    PreparedInput(FILE_SEARCH_ONLY, loads, svc);
  }

  lemma NoWebSearch(loads: Loads)
    ensures !Uses(Executions(FILE_SEARCH_ONLY, loads), WebSearchTool)
  {
    ExecutionsUse(FILE_SEARCH_ONLY, loads, WebSearchTool);
    hide Executions, BridgedCalls;
  }
}
