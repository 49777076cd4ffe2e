/** app/services/chat_service.py: routing, validation, and the two bridging passes of `_prepare_request`. */
module ChatService {
  import opened Sequences
  import opened Wrappers
  import opened Values
  import opened RequestMapper
  import opened Registry

  datatype ToolSpec = ToolSpec(
    name: string, description: Option<string>, parameters: Value, strict: Option<bool>, unsupported: bool)

  /** `codeInterpreter` is null, a boolean or a dict. */
  datatype BuiltinConfig = BuiltinConfig(
    webSearch: bool, fileSearch: map<string, Value>, codeInterpreter: Value, unsupported: bool)

  datatype Mode = Auto | ResponsesMode | ChatMode

  /** `unsupported` flags stand for non-null fields the translation does not know. */
  datatype Request = Request(
    mode: Mode,
    inputItems: seq<Value>,
    messages: seq<Message>,
    tools: seq<ToolSpec>,
    builtins: Option<BuiltinConfig>,
    reasoningEffort: Option<string>,
    n: int,
    hasStop: bool,
    stream: bool,
    hasStreamOptions: bool,
    unknownStreamOption: bool,
    unsupported: bool,
    model: Option<string>)

  /** What the service is configured with. */
  datatype Service = Service(defaultModel: string, webResults: bool)

  // ----- routing -----

  predicate HasAudio(m: Message) {
    m.content.List? && exists p :: p in m.content.items && Get(p, "type") == Str("input_audio")
  }

  /** `select_mode`, for a service with or without a native adapter. */
  function SelectMode(req: Request, native: bool): Result<Mode> {
    var hasState := req.inputItems != [] || exists m :: m in req.messages && m.responseItems != [];
    var hasBridge := exists t :: t in req.tools && Bridged(Some(t.name));
    var requiresResponses := req.builtins.Some? || hasState || hasBridge;
    if req.mode != Auto then
      if req.mode == ChatMode && !native then Err("Native Chat Completions mode is not configured") else Ok(req.mode)
    else if !native then Ok(ResponsesMode)
    else if (exists m :: m in req.messages && HasAudio(m)) && !requiresResponses then Ok(ChatMode)
    else if requiresResponses || (req.reasoningEffort.Some? && req.tools != []) then Ok(ResponsesMode)
    else Ok(ChatMode)
  }

  /** What `_native_payload` strips from a request. */
  function Stripped(req: Request): Request {
    req.(inputItems := [], builtins := None, mode := Auto,
         messages := seq(|req.messages|, i requires 0 <= i < |req.messages| => req.messages[i].(responseItems := [])))
  }

  // ----- validation -----

  predicate CompatibleMessage(m: Message) {
    && m.role != Function
    && (m.name.Some? ==> m.role == Tool)
    && !m.unsupported
    && forall c | c in m.toolCalls :: !c.unsupported
  }

  /** Nothing in the request lies outside what translation can carry. */
  predicate Compatible(req: Request) {
    && req.n == 1 && !req.hasStop && !req.unsupported
    && (req.hasStreamOptions ==> !req.unknownStreamOption && req.stream)
    && (req.builtins.Some? ==> !req.builtins.value.unsupported)
    && (forall t | t in req.tools :: !t.unsupported)
    && (forall m | m in req.messages :: CompatibleMessage(m))
  }

  method ScanMessages(ms: seq<Message>) returns (conflicts: seq<string>)
    ensures conflicts == [] <==> forall m | m in ms :: CompatibleMessage(m)
  {
    var legacyRole, named, unknown, badCall := false, false, false, false;
    for i := 0 to |ms|
      invariant !legacyRole && !named && !unknown && !badCall <==> forall m | m in ms[..i] :: CompatibleMessage(m)
    {
      var m := ms[i];
      assert ms[..i + 1] == ms[..i] + [m];
      legacyRole := legacyRole || m.role == Function;
      named := named || (m.name.Some? && m.role != Tool);
      unknown := unknown || m.unsupported;
      var badHere := exists c :: c in m.toolCalls && c.unsupported;
      badCall := badCall || badHere;
      assert CompatibleMessage(m) <==>
             m.role != Function && (m.name.Some? ==> m.role == Tool) && !m.unsupported && !badHere;
    }
    assert ms[..|ms|] == ms;
    conflicts := (if legacyRole then ["legacy role=function messages"] else [])
                 + (if named then ["message.name"] else [])
                 + (if unknown then ["unsupported Chat Completions message fields"] else [])
                 + (if badCall then ["unsupported assistant tool_calls"] else []);
  }

  method ScanTools(tools: seq<ToolSpec>) returns (conflicts: seq<string>)
    ensures conflicts == [] <==> forall t | t in tools :: !t.unsupported
  {
    var bad := false;
    for i := 0 to |tools|
      invariant !bad <==> forall t | t in tools[..i] :: !t.unsupported
    {
      assert tools[..i + 1] == tools[..i] + [tools[i]];
      bad := bad || tools[i].unsupported;
    }
    assert tools[..|tools|] == tools;
    conflicts := if bad then ["unsupported tool fields"] else [];
  }

  /** `_validate_responses_compatibility`: the list of conflicts, an error when there is one. */
  method ValidateResponsesCompatibility(req: Request) returns (conflicts: seq<string>)
    ensures conflicts == [] <==> Compatible(req)
  {
    conflicts := [];
    if req.n != 1 { conflicts := conflicts + ["n"]; }
    if req.hasStop { conflicts := conflicts + ["stop"]; }
    if req.unsupported { conflicts := conflicts + ["unsupported Chat Completions parameters"]; }
    if req.hasStreamOptions {
      if req.unknownStreamOption { conflicts := conflicts + ["unsupported stream_options fields"]; }
      if !req.stream { conflicts := conflicts + ["stream_options with stream=false"]; }
    }
    if req.builtins.Some? && req.builtins.value.unsupported {
      conflicts := conflicts + ["unsupported x_builtin_tools fields"];
    }
    var inTools := ScanTools(req.tools);
    var inMessages := ScanMessages(req.messages);
    conflicts := conflicts + inTools + inMessages;
  }

  // ----- first pass: which call ids are bridged -----

  /** json.loads; None when it raises */
  type Loads = Value -> Option<Value>

  datatype Prior = Prior(spec: BridgeSpec, name: string, arguments: Value)

  function AsDict(v: Option<Value>): Value {
    if v.Some? && v.value.Dict? then v.value else Dict(map[])
  }

  function BridgesCall(c: ChatCall): bool {
    Bridged(c.name) && c.id.Some? && c.id.value != ""
  }

  /** A call of a bridged tool, for the witnesses. */
  const SEARCH_CALL := ChatCall(Some("c"), Some("web_search"), None, false)

  function PriorOf(c: ChatCall, loads: Loads): Prior
    requires BridgesCall(c)
  {
    Prior(FindBridge(c.name.value).value, c.name.value,
          AsDict(loads(Or(if c.arguments.Some? then c.arguments.value else Null, Str("{}")))))
  }

  function CallsOf(m: Message): seq<ChatCall> {
    if m.role == Assistant then m.toolCalls else []
  }

  function Collected(calls: seq<ChatCall>, loads: Loads): map<string, Prior> {
    if calls == [] then map[]
    else
      var before, c := Collected(calls[..|calls| - 1], loads), calls[|calls| - 1];
      if BridgesCall(c) then before[c.id.value := PriorOf(c, loads)] else before
  }

  /** The bridged calls of a transcript by id; the last one wins. */
  function BridgedCalls(ms: seq<Message>, loads: Loads): map<string, Prior> {
    Collected(FlatMap(CallsOf, ms), loads)
  }

  lemma CollectedSnoc(calls: seq<ChatCall>, c: ChatCall, loads: Loads)
    ensures Collected(calls + [c], loads) ==
            if BridgesCall(c) then Collected(calls, loads)[c.id.value := PriorOf(c, loads)] else Collected(calls, loads)
  {
    assert (calls + [c])[..|calls + [c]| - 1] == calls;
  }

  /** The loop over the calls of one message. */
  method AddBridgedCalls(calls: seq<ChatCall>, before: map<string, Prior>, ghost earlier: seq<ChatCall>, loads: Loads)
    returns (bridged: map<string, Prior>)
    requires before == Collected(earlier, loads)
    ensures bridged == Collected(earlier + calls, loads)
  {
    bridged := before;
    assert earlier + calls[..0] == earlier;
    for j := 0 to |calls|
      invariant bridged == Collected(earlier + calls[..j], loads)
    {
      var c := calls[j];
      assert earlier + calls[..j + 1] == earlier + calls[..j] + [c];
      CollectedSnoc(earlier + calls[..j], c, loads);
      if BridgesCall(c) {
        bridged := bridged[c.id.value := PriorOf(c, loads)];
      }
    }
    assert calls[..|calls|] == calls;
  }

  method CollectBridgedCalls(ms: seq<Message>, loads: Loads) returns (bridged: map<string, Prior>)
    ensures bridged == BridgedCalls(ms, loads)
  {
    bridged := map[];
    for i := 0 to |ms|
      invariant bridged == BridgedCalls(ms[..i], loads)
    {
      FlatMapStep(CallsOf, ms, i);
      if ms[i].role != Assistant {
        assert FlatMap(CallsOf, ms[..i]) + [] == FlatMap(CallsOf, ms[..i]);
        continue;
      }
      bridged := AddBridgedCalls(ms[i].toolCalls, bridged, FlatMap(CallsOf, ms[..i]), loads);
    }
    assert ms[..|ms|] == ms;
  }

  lemma {:induction false} CollectedKeys(calls: seq<ChatCall>, loads: Loads, id: string)
    ensures id in Collected(calls, loads) <==> exists c :: c in calls && BridgesCall(c) && c.id.value == id
  {
    if calls != [] {
      var before, c := calls[..|calls| - 1], calls[|calls| - 1];
      assert calls == before + [c];
      CollectedKeys(before, loads, id);
    }
  }

  // ----- second pass: what is forwarded and what becomes a search request -----

  function Keeps(bridged: map<string, Prior>): ChatCall -> seq<ChatCall> {
    (c: ChatCall) => if c.id.Some? && c.id.value in bridged then [] else [c]
  }

  function PriorFor(m: Message, bridged: map<string, Prior>): Option<Prior> {
    if m.toolCallId.Some? && m.toolCallId.value in bridged then Some(bridged[m.toolCallId.value]) else None
  }

  /** The bridge a tool message belongs to, by its call or else by its own name. */
  function SpecFor(m: Message, bridged: map<string, Prior>): Option<BridgeSpec> {
    match PriorFor(m, bridged)
    case Some(p) => Some(p.spec)
    case None => if m.name.Some? && m.name.value != "" then FindBridge(m.name.value) else None
  }

  predicate Replaced(m: Message, bridged: map<string, Prior>) {
    m.role == Tool && SpecFor(m, bridged).Some?
  }

  /** What is forwarded for one message. */
  function Forward(m: Message, bridged: map<string, Prior>): seq<Message> {
    if m.role == Assistant && m.toolCalls != [] then
      var m' := m.(toolCalls := FlatMap(Keeps(bridged), m.toolCalls));
      if m'.toolCalls != [] || !Blank(m.content) || m.refusal != Null then [m'] else []
    else if Replaced(m, bridged) then []
    else [m]
  }

  /** All calls of the message are bridged, and it has no content or refusal of its own: it is not forwarded. */
  predicate Swallowed(m: Message, bridged: map<string, Prior>) {
    m.toolCalls != [] && FlatMap(Keeps(bridged), m.toolCalls) == [] && Blank(m.content) && m.refusal == Null
  }

  function QueryOf(m: Message, bridged: map<string, Prior>, loads: Loads): Option<string>
    requires Replaced(m, bridged)
  {
    var prior, candidates := PriorFor(m, bridged), SpecFor(m, bridged).value.queryCandidates;
    var payload := AsDict(if IsStr(m.content) then loads(m.content) else Some(m.content));
    var asked := ExtractBridgeQuery(if prior.Some? then prior.value.arguments else Dict(map[]), candidates);
    if asked.Some? then asked else ExtractBridgeQuery(payload, candidates)
  }

  function Prompt(tool: Builtin, query: string): Value {
    RoleItem(User, Str((if tool == WebSearchTool then "Use web search to answer this query: "
                        else "Use file search to answer this query: ") + query))
  }

  /** The user item that stands in for a bridged tool message. */
  function Ask(m: Message, bridged: map<string, Prior>, loads: Loads): seq<Value> {
    if Replaced(m, bridged) && QueryOf(m, bridged, loads).Some? then
      [Prompt(SpecFor(m, bridged).value.tool, QueryOf(m, bridged, loads).value)]
    else []
  }

  function Execution(m: Message, bridged: map<string, Prior>, loads: Loads): seq<BridgeExecution> {
    if Replaced(m, bridged) then
      var prior := PriorFor(m, bridged);
      [BridgeExecution(SpecFor(m, bridged).value.tool, if prior.Some? then Some(prior.value.name) else m.name,
                       QueryOf(m, bridged, loads))]
    else []
  }

  function ToolExecution(t: ToolSpec): seq<BridgeExecution> {
    match FindBridge(t.name)
    case Some(spec) => [BridgeExecution(spec.tool, Some(t.name), None)]
    case None => []
  }

  const NO_BUILTINS := BuiltinConfig(false, map[], Null, false)

  /** The built-in configuration once a bridge to `tool` has been seen. */
  function Enable(cfg: Option<BuiltinConfig>, tool: Builtin): Option<BuiltinConfig> {
    var c := if cfg.Some? then cfg.value else NO_BUILTINS;
    match tool
    case WebSearchTool => Some(c.(webSearch := true))
    case FileSearchTool => Some(c.(fileSearch := if c.fileSearch != map[] then c.fileSearch else map[]))
  }

  function EnableAll(cfg: Option<BuiltinConfig>, executions: seq<BridgeExecution>): Option<BuiltinConfig> {
    if executions == [] then cfg
    else Enable(EnableAll(cfg, executions[..|executions| - 1]), executions[|executions| - 1].tool)
  }

  // ----- tools -----

  function CustomTool(t: ToolSpec): seq<Value> {
    if FindBridge(t.name).Some? then []
    else
      [Dict(map["type" := Str("function"), "name" := Str(t.name),
                "description" := Str(if t.description.Some? then t.description.value else ""),
                "parameters" := Or(t.parameters, Dict(map["type" := Str("object"), "properties" := Dict(map[])])),
                "strict" := Bool(t.strict.Some? && t.strict.value)])]
  }

  const AUTO_CONTAINER := Dict(map["type" := Str("auto")])

  function InterpreterTool(cfg: Value): Value {
    if cfg.Dict? then
      Dict(map["type" := Str("code_interpreter"), "container" := AUTO_CONTAINER] + cfg.fields)
    else Dict(map["type" := Str("code_interpreter"), "container" := AUTO_CONTAINER])
  }

  function WebSearchTools(cfg: BuiltinConfig): seq<Value> {
    if cfg.webSearch then [Dict(map["type" := Str("web_search")])] else []
  }

  function FileSearchTools(cfg: BuiltinConfig): seq<Value> {
    if cfg.fileSearch != map[] then [Dict(map["type" := Str("file_search")] + cfg.fileSearch)] else []
  }

  function InterpreterTools(cfg: BuiltinConfig): seq<Value> {
    if Truthy(cfg.codeInterpreter) then [InterpreterTool(cfg.codeInterpreter)] else []
  }

  function BuiltinTools(cfg: Option<BuiltinConfig>): seq<Value> {
    if cfg == None then []
    else WebSearchTools(cfg.value) + FileSearchTools(cfg.value) + InterpreterTools(cfg.value)
  }

  method MergeBuiltinTools(tools: seq<Value>, cfg: Option<BuiltinConfig>) returns (merged: seq<Value>)
    ensures merged == tools + BuiltinTools(cfg)
  {
    merged := tools;
    if cfg.Some? {
      if cfg.value.webSearch {
        merged := merged + [Dict(map["type" := Str("web_search")])];
      }
      if cfg.value.fileSearch != map[] {
        merged := merged + [Dict(map["type" := Str("file_search")] + cfg.value.fileSearch)];
      }
      if Truthy(cfg.value.codeInterpreter) {
        merged := merged + [InterpreterTool(cfg.value.codeInterpreter)];
      }
    }
  }

  function IncludeList(cfg: Option<BuiltinConfig>, webResults: bool): seq<string> {
    (if cfg.Some? && cfg.value.webSearch then
       ["web_search_call.action.sources"] + if webResults then ["web_search_call.results"] else []
     else [])
    + (if cfg.Some? && cfg.value.fileSearch != map[] then ["file_search_call.results"] else [])
    + (if cfg.Some? && Truthy(cfg.value.codeInterpreter) then ["code_interpreter_call.outputs"] else [])
    + ["reasoning.encrypted_content"]
  }

  method BuildIncludeList(cfg: Option<BuiltinConfig>, webResults: bool) returns (include_: seq<string>)
    ensures include_ == IncludeList(cfg, webResults)
  {
    include_ := [];
    if cfg.Some? && cfg.value.webSearch {
      include_ := include_ + ["web_search_call.action.sources"];
      if webResults {
        include_ := include_ + ["web_search_call.results"];
      }
    }
    if cfg.Some? && cfg.value.fileSearch != map[] {
      include_ := include_ + ["file_search_call.results"];
    }
    if cfg.Some? && Truthy(cfg.value.codeInterpreter) {
      include_ := include_ + ["code_interpreter_call.outputs"];
    }
    include_ := include_ + ["reasoning.encrypted_content"];
  }

  // ----- the whole preparation -----

  datatype Prepared = Prepared(
    model: string, input: seq<Value>, tools: seq<Value>, includes: seq<string>, executions: seq<BridgeExecution>)

  function Forwards(bridged: map<string, Prior>): Message -> seq<Message> {
    (m: Message) => Forward(m, bridged)
  }

  function AsksFor(bridged: map<string, Prior>, loads: Loads): Message -> seq<Value> {
    (m: Message) => Ask(m, bridged, loads)
  }

  function Executes(bridged: map<string, Prior>, loads: Loads): Message -> seq<BridgeExecution> {
    (m: Message) => Execution(m, bridged, loads)
  }

  function Executions(req: Request, loads: Loads): seq<BridgeExecution> {
    var bridged := BridgedCalls(req.messages, loads);
    FlatMap(ToolExecution, req.tools) + FlatMap(Executes(bridged, loads), req.messages)
  }

  function ModelOf(req: Request, svc: Service): string {
    if req.model.Some? && req.model.value != "" then req.model.value else svc.defaultModel
  }

  /** `_prepare_request` */
  function Prepare(req: Request, loads: Loads, svc: Service): Result<Prepared> {
    var bridged, executions := BridgedCalls(req.messages, loads), Executions(req, loads);
    var cfg := EnableAll(req.builtins, executions);
    if !Compatible(req) then Err("Responses translation cannot preserve the request")
    else
      match TranslateAll(FlatMap(Forwards(bridged), req.messages))
      case Err(e) => Err(e)
      case Ok(items) =>
        Ok(Prepared(ModelOf(req, svc),
                    req.inputItems + items + FlatMap(AsksFor(bridged, loads), req.messages),
                    FlatMap(CustomTool, req.tools) + BuiltinTools(cfg),
                    IncludeList(cfg, svc.webResults),
                    executions))
  }

  lemma PreparedCompatible(req: Request, loads: Loads, svc: Service)
    requires Prepare(req, loads, svc).Ok?
    ensures Compatible(req)
  {
    hide FlatMap, TranslateAll, EnableAll, BuiltinTools, IncludeList, BridgedCalls, Executions, Compatible;
  }

  lemma PreparedInput(req: Request, loads: Loads, svc: Service)
    requires Compatible(req)
    ensures var bridged := BridgedCalls(req.messages, loads);
            var items := TranslateAll(FlatMap(Forwards(bridged), req.messages));
            match Prepare(req, loads, svc) {
              case Err(e) => items == Err(e)
              case Ok(p) =>
                items.Ok? && p.input == req.inputItems + items.value + FlatMap(AsksFor(bridged, loads), req.messages)
            }
  {
    hide FlatMap, TranslateAll, EnableAll, BuiltinTools, IncludeList, BridgedCalls, Executions;
  }

  lemma EnableStep(cfg: Option<BuiltinConfig>, executions: seq<BridgeExecution>, more: seq<BridgeExecution>)
    requires |more| <= 1
    ensures EnableAll(cfg, executions + more) ==
            if more == [] then EnableAll(cfg, executions) else Enable(EnableAll(cfg, executions), more[0].tool)
  {
    if more == [] {
      assert executions + more == executions;
    } else {
      assert (executions + more)[..|executions|] == executions;
    }
  }

  lemma {:induction false} EnableAppend(cfg: Option<BuiltinConfig>, a: seq<BridgeExecution>, b: seq<BridgeExecution>)
    ensures EnableAll(EnableAll(cfg, a), b) == EnableAll(cfg, a + b)
  {
    if b == [] {
      assert a + b == a;
    } else {
      assert (a + b)[..|a + b| - 1] == a + b[..|b| - 1];
      EnableAppend(cfg, a, b[..|b| - 1]);
    }
  }

  lemma MessageStep(ms: seq<Message>, i: nat, bridged: map<string, Prior>, loads: Loads)
    requires i < |ms|
    ensures FlatMap(Forwards(bridged), ms[..i + 1]) == FlatMap(Forwards(bridged), ms[..i]) + Forward(ms[i], bridged)
    ensures FlatMap(AsksFor(bridged, loads), ms[..i + 1]) ==
            FlatMap(AsksFor(bridged, loads), ms[..i]) + Ask(ms[i], bridged, loads)
    ensures FlatMap(Executes(bridged, loads), ms[..i + 1]) ==
            FlatMap(Executes(bridged, loads), ms[..i]) + Execution(ms[i], bridged, loads)
  {
    FlatMapStep(Forwards(bridged), ms, i);
    FlatMapStep(AsksFor(bridged, loads), ms, i);
    FlatMapStep(Executes(bridged, loads), ms, i);
  }

  /** First loop: tool definitions. */
  method BridgeTools(req: Request) returns (cfg: Option<BuiltinConfig>, executions: seq<BridgeExecution>)
    ensures executions == FlatMap(ToolExecution, req.tools) && cfg == EnableAll(req.builtins, executions)
  {
    cfg, executions := req.builtins, [];
    for i := 0 to |req.tools|
      invariant executions == FlatMap(ToolExecution, req.tools[..i]) && cfg == EnableAll(req.builtins, executions)
    {
      var t := req.tools[i];
      FlatMapStep(ToolExecution, req.tools, i);
      match FindBridge(t.name)
      case None =>
      case Some(spec) =>
        var e := BridgeExecution(spec.tool, Some(t.name), None);
        EnableStep(req.builtins, executions, [e]);
        executions := executions + [e];
        cfg := Enable(cfg, spec.tool);
    }
    assert req.tools[..|req.tools|] == req.tools;
  }

  /** One turn of the second loop over the messages. */
  method BridgeMessage(m: Message, bridged: map<string, Prior>, loads: Loads, cfg: Option<BuiltinConfig>)
    returns (forwarded: seq<Message>, asks: seq<Value>, executions: seq<BridgeExecution>, cfg': Option<BuiltinConfig>)
    ensures forwarded == Forward(m, bridged) && asks == Ask(m, bridged, loads)
    ensures executions == Execution(m, bridged, loads)
    ensures cfg' == if executions == [] then cfg else Enable(cfg, executions[0].tool)
  {
    forwarded, asks, executions, cfg' := [], [], [], cfg;
    if m.role == Assistant && m.toolCalls != [] {
      var kept := FlatMap(Keeps(bridged), m.toolCalls);
      if kept != [] || !Blank(m.content) || m.refusal != Null {
        forwarded := [m.(toolCalls := kept)];
      }
      return;
    }
    if m.role == Tool {
      var prior := PriorFor(m, bridged);
      var spec := SpecFor(m, bridged);
      if spec == None {
        forwarded := [m];
        return;
      }
      var query := QueryOf(m, bridged, loads);
      executions := [BridgeExecution(spec.value.tool, if prior.Some? then Some(prior.value.name) else m.name, query)];
      cfg' := Enable(cfg, spec.value.tool);
      if query.Some? {
        asks := [Prompt(spec.value.tool, query.value)];
      }
      return;
    }
    forwarded := [m];
  }

  method BridgeMessages(req: Request, bridged: map<string, Prior>, loads: Loads, cfg: Option<BuiltinConfig>,
                        earlier: seq<BridgeExecution>)
    returns (forwarded: seq<Message>, asks: seq<Value>, executions: seq<BridgeExecution>, cfg': Option<BuiltinConfig>)
    requires cfg == EnableAll(req.builtins, earlier)
    ensures forwarded == FlatMap(Forwards(bridged), req.messages)
    ensures asks == FlatMap(AsksFor(bridged, loads), req.messages)
    ensures executions == earlier + FlatMap(Executes(bridged, loads), req.messages)
    ensures cfg' == EnableAll(req.builtins, executions)
  {
    var ms, mine := req.messages, [];
    forwarded, asks, cfg' := [], [], cfg;
    for i := 0 to |ms|
      invariant forwarded == FlatMap(Forwards(bridged), ms[..i])
      invariant asks == FlatMap(AsksFor(bridged, loads), ms[..i])
      invariant mine == FlatMap(Executes(bridged, loads), ms[..i])
      invariant cfg' == EnableAll(cfg, mine)
    {
      MessageStep(ms, i, bridged, loads);
      var f, a, e;
      f, a, e, cfg' := BridgeMessage(ms[i], bridged, loads, cfg');
      EnableStep(cfg, mine, e);
      forwarded, asks, mine := forwarded + f, asks + a, mine + e;
    }
    assert ms[..|ms|] == ms;
    EnableAppend(req.builtins, earlier, mine);
    executions := earlier + mine;
  }

  method PrepareRequest(req: Request, loads: Loads, svc: Service) returns (r: Result<Prepared>)
    ensures r == Prepare(req, loads, svc)
  {
    var conflicts := ValidateResponsesCompatibility(req);
    if conflicts != [] {
      return Err("Responses translation cannot preserve the request");
    }
    var cfg, toolExecutions := BridgeTools(req);
    var bridged := CollectBridgedCalls(req.messages, loads);
    var forwarded, asks, executions;
    forwarded, asks, executions, cfg := BridgeMessages(req, bridged, loads, cfg, toolExecutions);
    var custom := [];
    for i := 0 to |req.tools|
      invariant custom == FlatMap(CustomTool, req.tools[..i])
    {
      FlatMapStep(CustomTool, req.tools, i);
      custom := custom + CustomTool(req.tools[i]);
    }
    assert req.tools[..|req.tools|] == req.tools;
    var items := ToResponsesInput(forwarded);
    match items
    case Err(e) => r := Err(e);
    case Ok(translated) =>
      var tools := MergeBuiltinTools(custom, cfg);
      var includes := BuildIncludeList(cfg, svc.webResults);
      r := Ok(Prepared(ModelOf(req, svc), req.inputItems + translated + asks, tools, includes, executions));
  }
}
