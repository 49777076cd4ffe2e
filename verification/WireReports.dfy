/** Whole responses as the API sends them, and what each of the two paths reports of them. */
module WireReports {
  import opened Sequences
  import opened Strings
  import opened Wrappers
  import opened Values
  import opened Serialization
  import opened Items
  import opened Registry
  import opened LegacyLog
  import opened StreamMapper
  import opened StreamGrammar
  import opened StreamAgreement
  import opened Wire = WireFormat
  import ResponseMapper

  // ----- lists of items -----

  lemma {:induction false} ItemsRead(items: seq<Wire.Item>)
    ensures var output := FlatMap(WireItem, items);
            && FlatMap(Items.ItemTexts, output) == FlatMap(Wire.ItemTexts, items)
            && FlatMap(ItemToolCalls, output) == FlatMap(Calls, items)
            && FlatMap(ItemCitations, output) == FlatMap(AnswerCited, items)
            && FlatMap(StreamCitations, output) == FlatMap(StreamCited, items)
            && FlatMap(ItemToolEvents, output) == FlatMap(AnswerEvents, items)
            && FlatMap(StreamToolEvents, output) == FlatMap(StreamEvents, items)
            && FlatMap(ItemFileResults, output) == FlatMap(Hits, items)
            && FlatMap(ItemInterpreterOutputs, output) == FlatMap(Outputs, items)
  {
    hide Encoded, FlatMap;
    forall item: Wire.Item ensures ReadAs(Encoded(item), item) { ItemRead(item); }
    Composed(Items.ItemTexts, Wire.ItemTexts, items);
    Composed(ItemToolCalls, Calls, items);
    Composed(ItemCitations, AnswerCited, items);
    Composed(StreamCitations, StreamCited, items);
    Composed(ItemToolEvents, AnswerEvents, items);
    Composed(StreamToolEvents, StreamEvents, items);
    Composed(ItemFileResults, Hits, items);
    Composed(ItemInterpreterOutputs, Outputs, items);
  }

  function AnswerEvents(item: Wire.Item): seq<ToolEvent> {
    Events(item, false)
  }

  function StreamEvents(item: Wire.Item): seq<ToolEvent> {
    Events(item, true)
  }

  lemma {:induction false} Composed<T>(read: Value -> seq<T>, told: Wire.Item -> seq<T>, items: seq<Wire.Item>)
    requires forall item :: read(Encoded(item)) == told(item)
    ensures FlatMap(read, FlatMap(WireItem, items)) == FlatMap(told, items)
  {
    hide Encoded;
    forall item | item in items ensures told(item) == FlatMap(read, WireItem(item)) {
      FlatMapOne(read, Encoded(item));
    }
    FlatMapCompose(read, WireItem, told, items);
  }

  // ----- the steps of the older log format -----

  /** The calls that wait for a message after `items`. */
  function Waiting(items: seq<Wire.Item>): seq<ToolCall> {
    if items == [] then []
    else
      var before, item := Waiting(items[..|items| - 1]), items[|items| - 1];
      if item.Said? then [] else before + Calls(item)
  }

  function SourceShown(s: Source): seq<Value> {
    [Dict(map["type" := s.kind, "title" := s.title, "url" := s.url])]
  }

  function HitShown(h: Hit): seq<Value> {
    [Dict(map["file_id" := h.fileId, "filename" := h.filename, "score" := h.score, "text" := h.text])]
  }

  /** A built-in call, and its result as a tool message with the same id and name. */
  function Shown(id: Value, name: string, arguments: Value, result: map<string, Value>): seq<LegacyStep> {
    [CallStep(ToolCall(id, Str(name), arguments)), ToolStep(id, name, JsonText(Dict(result)))]
  }

  function ShownAs(bridges: seq<BridgeExecution>, tool: Builtin, default: string): string {
    if FirstDisplayName(bridges, tool).Some? then FirstDisplayName(bridges, tool).value else default
  }

  /** The name shown for a built-in is that of the first bridge to it that has one. */
  lemma {:induction false} FirstNameShown(bridges: seq<BridgeExecution>, tool: Builtin, i: nat)
    requires i <= |bridges|
    requires forall j | 0 <= j < i :: bridges[j].tool != tool || bridges[j].displayName in {None, Some("")}
    requires i < |bridges| ==> bridges[i].tool == tool && bridges[i].displayName !in {None, Some("")}
    ensures FirstDisplayName(bridges, tool) == if i < |bridges| then bridges[i].displayName else None
  {
    if i > 0 { FirstNameShown(bridges[1..], tool, i - 1); }
  }

  function ItemSteps(item: Wire.Item, waiting: seq<ToolCall>, bridges: seq<BridgeExecution>): seq<LegacyStep> {
    match item
    case Said(parts) => [MessageStep(Strip(Join(FlatMap(Wire.Texts, parts))), waiting, FlatMap(PartCited, parts))]
    case SearchedWeb(id, _, query, sources) =>
      Shown(Wire.Or(id, "builtin_web_search"), ShownAs(bridges, WebSearchTool, "openai_builtin.web_search"),
            JsonText(Dict(map["query" := query])),
            map["query" := query, "sources" := List(FlatMap(SourceShown, sources))])
    case SearchedFiles(id, _, hits) =>
      Shown(Wire.Or(id, "builtin_file_search"), ShownAs(bridges, FileSearchTool, "openai_builtin.file_search"),
            Str("{}"), map["results" := List(FlatMap(HitShown, hits))])
    case RanCode(id, _, outputs) =>
      Shown(Wire.Or(id, "builtin_code_interpreter"), "openai_builtin.code_interpreter", Str("{}"),
            map["outputs" := List(FlatMap(WireOutput, outputs))])
    case _ => []
  }

  function Steps(items: seq<Wire.Item>, bridges: seq<BridgeExecution>): seq<LegacyStep> {
    if items == [] then []
    else
      var before, item := items[..|items| - 1], items[|items| - 1];
      Steps(before, bridges) + ItemSteps(item, Waiting(before), bridges)
  }

  lemma SourcesShown(sources: seq<Source>)
    ensures FlatMap(SourceRecord, FlatMap(WireSource, sources)) == FlatMap(SourceShown, sources)
  {
    forall s | s in sources ensures SourceShown(s) == FlatMap(SourceRecord, WireSource(s)) {
      FlatMapOne(SourceRecord, WireSource(s)[0]);
    }
    FlatMapCompose(SourceRecord, WireSource, SourceShown, sources);
  }

  lemma HitsShown(hits: seq<Hit>)
    ensures FlatMap(ResultRecord, FlatMap(WireHit, hits)) == FlatMap(HitShown, hits)
  {
    forall h | h in hits ensures HitShown(h) == FlatMap(ResultRecord, WireHit(h)) {
      FlatMapOne(ResultRecord, WireHit(h)[0]);
    }
    FlatMapCompose(ResultRecord, WireHit, HitShown, hits);
  }

  lemma WebSteps(item: Wire.Item, waiting: seq<ToolCall>, bridges: seq<BridgeExecution>)
    requires item.SearchedWeb?
    ensures StepsOf(Encoded(item), waiting, bridges) == ItemSteps(item, waiting, bridges)
  {
    hide FlatMap, KindOf, Encoded, AttrOr, AttrList, Sources, FirstDisplayName;
    KindRead(item);
    SourcesShown(item.sources);
    WebFields(item, "builtin_web_search");
  }

  lemma FileSteps(item: Wire.Item, waiting: seq<ToolCall>, bridges: seq<BridgeExecution>)
    requires item.SearchedFiles?
    ensures StepsOf(Encoded(item), waiting, bridges) == ItemSteps(item, waiting, bridges)
  {
    hide FlatMap, KindOf, Encoded, AttrOr, AttrList, FirstDisplayName;
    KindRead(item);
    HitsShown(item.hits);
    FileFields(item, "builtin_file_search");
  }

  lemma CodeSteps(item: Wire.Item, waiting: seq<ToolCall>, bridges: seq<BridgeExecution>)
    requires item.RanCode?
    ensures StepsOf(Encoded(item), waiting, bridges) == ItemSteps(item, waiting, bridges)
  {
    hide FlatMap, KindOf, Encoded, AttrOr, AttrList, FirstDisplayName;
    KindRead(item);
    CodeFields(item, "builtin_code_interpreter");
  }

  lemma StepsRead(item: Wire.Item, waiting: seq<ToolCall>, bridges: seq<BridgeExecution>)
    ensures StepsOf(Encoded(item), waiting, bridges) == ItemSteps(item, waiting, bridges)
  {
    match item
    case SearchedWeb(_, _, _, _) => WebSteps(item, waiting, bridges);
    case SearchedFiles(_, _, _) => FileSteps(item, waiting, bridges);
    case RanCode(_, _, _) => CodeSteps(item, waiting, bridges);
    case Said(parts) =>
      KindRead(item);
      TextsRead(parts);
      CitationsRead(parts);
      hide FlatMap, KindOf;
    case _ =>
      KindRead(item);
      hide FlatMap, KindOf;
  }

  /** The log of a response: a step for each message with the calls since the last one, two for each built-in call. */
  lemma {:induction false} LogRead(items: seq<Wire.Item>, bridges: seq<BridgeExecution>)
    ensures LegacySteps(FlatMap(WireItem, items), bridges) == Steps(items, bridges)
    ensures Pending(FlatMap(WireItem, items)) == Waiting(items)
  {
    if items == [] {
      FlatMapNone(WireItem);
      FlatMapNone(ItemToolCalls);
      hide FlatMap;
      var none: seq<Value> := [];
      assert none[SinceMessage(none)..] == [];
    } else {
      hide FlatMap, Encoded, LegacySteps, Pending, StepsOf, ItemSteps, KindOf, ItemToolCalls, Calls;
      var before, item := items[..|items| - 1], items[|items| - 1];
      LogRead(before, bridges);
      FlatMapSnoc(WireItem, items);
      LogItemRead(item);
      StepsRead(item, Waiting(before), bridges);
      LogGrows(FlatMap(WireItem, before), Encoded(item), bridges);
    }
  }

  lemma LogItemRead(item: Wire.Item)
    ensures KindOf(Encoded(item)) == Message <==> item.Said?
    ensures ItemToolCalls(Encoded(item)) == Calls(item)
  {
    KindRead(item);
    ItemRead(item);
    hide Encoded, KindOf;
  }

  lemma LogGrows(output: seq<Value>, w: Value, bridges: seq<BridgeExecution>)
    ensures LegacySteps(output + [w], bridges) == LegacySteps(output, bridges) + StepsOf(w, Pending(output), bridges)
    ensures Pending(output + [w]) == if KindOf(w) == Message then [] else Pending(output) + ItemToolCalls(w)
  {
    hide FlatMap, LegacySteps, Pending, StepsOf, KindOf, ItemToolCalls;
    var longer := output + [w];
    assert longer[..|output|] == output && longer[..|output| + 1] == longer;
    StepsStep(longer, |output|, bridges);
    PendingStep(longer, |output|);
  }

  // ----- whole responses -----

  /** A response with these items, perhaps with a status and a reason for being incomplete. */
  function Response(items: seq<Wire.Item>, id: Value, status: Option<Value>, reason: Option<string>): Value {
    var fields := map["output" := List(FlatMap(WireItem, items)), "id" := id];
    var details := if reason.Some? then Some(Object(map["reason" := Str(reason.value)])) else None;
    Object(With(With(fields, "status", status), "incomplete_details", details))
  }

  function Details(reason: Option<string>): Value {
    if reason.Some? then Dict(map["reason" := Str(reason.value)]) else Null
  }

  lemma ResponseRead(items: seq<Wire.Item>, id: Value, status: Option<Value>, reason: Option<string>)
    ensures var r := Response(items, id, status, reason);
            && r.Object? && r != Null
            && AttrList(r, "output") == FlatMap(WireItem, items)
            && Attr(r, "id") == id
            && AttrOr(r, "status", Str("completed")) == Wire.Or(status, "completed")
            && Attr(r, "status") == (if status.Some? then status.value else Null)
            && Jsonable(Attr(r, "incomplete_details")) == Details(reason)
  {
    hide FlatMap;
    if reason.Some? { ReasonKept(reason.value); }
    hide Jsonable;
  }

  lemma ReasonKept(reason: string)
    ensures Jsonable(Object(map["reason" := Str(reason)])) == Dict(map["reason" := Str(reason)])
  {
    var fields := map["reason" := Str(reason)];
    assert Jsonable(Str(reason)) == Str(reason);
    assert Jsonable(Object(fields)).fields == fields;
  }

  /** Outside a stream: everything a response holds is reported once, in order and under its own name. */
  lemma AnswerRead(items: seq<Wire.Item>, id: Value, status: Option<Value>, reason: Option<string>,
                   bridges: seq<BridgeExecution>)
    ensures var n := ResponseMapper.NormalizedOf(Response(items, id, status, reason), bridges);
            && n.assistantText == Strip(Join(FlatMap(Wire.ItemTexts, items)))
            && n.toolCalls == FlatMap(Calls, items)
            && n.citations == FlatMap(AnswerCited, items)
            && n.toolEvents == FlatMap(AnswerEvents, items)
            && n.fileResults == FlatMap(Hits, items)
            && n.interpreterOutputs == FlatMap(Outputs, items)
            && n.legacySteps == Steps(items, bridges)
            && n.responseId == id
            && n.status == (if status.Some? then status.value else Null)
            && n.incompleteDetails == Details(reason)
            && |n.responseItems| == |items|
            && forall i | 0 <= i < |items| :: n.responseItems[i] == Jsonable(Encoded(items[i]))
  {
    ItemsRead(items);
    LogRead(items, bridges);
    ResponseRead(items, id, status, reason);
    AllEncoded(items);
    hide FlatMap, Response, LegacySteps, Jsonable, AttrOr, Strip, Details, Steps, WireItem;
  }

  lemma {:induction false} AllEncoded(items: seq<Wire.Item>)
    ensures |FlatMap(WireItem, items)| == |items|
    ensures forall i | 0 <= i < |items| :: FlatMap(WireItem, items)[i] == Encoded(items[i])
  {
    if items != [] {
      AllEncoded(items[..|items| - 1]);
      hide WireItem;
    }
  }

  /** The text of the last message. */
  function LastText(items: seq<Wire.Item>): string {
    if items == [] then ""
    else
      var item := items[|items| - 1];
      if item.Said? then Strip(Join(FlatMap(Wire.Texts, item.parts))) else LastText(items[..|items| - 1])
  }

  lemma {:induction false} LastTextRead(items: seq<Wire.Item>)
    ensures LastAssistantText(FlatMap(WireItem, items)) == LastText(items)
  {
    if items != [] {
      var before, item := items[..|items| - 1], items[|items| - 1];
      LastTextRead(before);
      KindRead(item);
      FlatMapSnoc(WireItem, items);
      assert (FlatMap(WireItem, before) + [Encoded(item)])[..|FlatMap(WireItem, before)|] == FlatMap(WireItem, before);
      if item.Said? { MessageTextRead(item); }
      hide FlatMap, WireItem, MessageText, Strip, Join;
    }
  }

  lemma MessageTextRead(item: Wire.Item)
    requires item.Said?
    ensures MessageText(Encoded(item)) == Strip(Join(FlatMap(Wire.Texts, item.parts)))
  {
    TextsRead(item.parts);
    hide FlatMap;
  }

  /** What the final chunk is to report of a stream whose done items are the response's. */
  predicate Reports(r: Report, items: seq<Wire.Item>, id: Value, status: Option<Value>, reason: Option<string>,
                    bridges: seq<BridgeExecution>) {
    && r.citations == FlatMap(StreamCited, items)
    && r.toolEvents == FlatMap(StreamEvents, items)
    && r.fileResults == FlatMap(Hits, items)
    && r.interpreterOutputs == FlatMap(Outputs, items)
    && r.legacySteps == Steps(items, bridges)
    && r.assistantText == LastText(items)
    && r.responseId == id
    && r.status == Wire.Or(status, "completed")
    && r.incompleteDetails == Details(reason)
    && |r.responseItems| == |items|
    && (forall i | 0 <= i < |items| :: r.responseItems[i] == Jsonable(Encoded(items[i])))
  }

  lemma ReportRead(cfg: Config, es: seq<Event>, items: seq<Wire.Item>, id: Value, status: Option<Value>,
                   reason: Option<string>)
    requires DoneItems(es) == FlatMap(WireItem, items)
    ensures Reports(Reported(cfg, es, Response(items, id, status, reason)), items, id, status, reason, cfg.bridges)
  {
    hide FlatMap, Response, LegacySteps, Jsonable, AttrOr, Details, Steps, DoneItems, LastAssistantText, LastText;
    ItemsRead(items);
    LogRead(items, cfg.bridges);
    ResponseRead(items, id, status, reason);
    LastTextRead(items);
    AllEncoded(items);
  }

  /** The final chunk of such a stream reports all of that; its finish reason is told by the reason and the items. */
  lemma StreamRead(cfg: Config, es: seq<Event>, items: seq<Wire.Item>, id: Value, status: Option<Value>,
                   reason: Option<string>)
    requires Live(es) == es && DoneItems(es) == FlatMap(WireItem, items)
    ensures var out, k := Output(cfg, es + [Ended(Response(items, id, status, reason))]), |Begun(cfg, es)|;
            && k < |out| && out[k].FinalChunk?
            && Reports(out[k].report, items, id, status, reason, cfg.bridges)
            && out[k].finishReason ==
               if reason == Some("max_output_tokens") then "length"
               else if exists i :: 0 <= i < |items| && items[i].Called? then "tool_calls"
               else "stop"
  {
    hide FlatMap, Response, Jsonable, AttrOr, Run, DoneItems, Live, CallsFunction, Output, Begun, Reports, Reported;
    var response := Response(items, id, status, reason);
    ReportRead(cfg, es, items, id, status, reason);
    ResponseRead(items, id, status, reason);
    ClosingSays(cfg, es, response);
    CallsEncoded(items);
    assert RanOut(response) <==> reason == Some("max_output_tokens");
    assert StreamAgreement.Shown(es, response) == FlatMap(WireItem, items);
  }

  lemma TypeRead(item: Wire.Item)
    ensures Attr(Encoded(item), "type") == Str("function_call") <==> item.Called?
  {
    KindRead(item);
    hide Encoded;
  }

  lemma CallsEncoded(items: seq<Wire.Item>)
    ensures CallsFunction(FlatMap(WireItem, items)) <==> exists i :: 0 <= i < |items| && items[i].Called?
  {
    hide FlatMap, Encoded, AttrOr;
    AllEncoded(items);
    var output := FlatMap(WireItem, items);
    if w :| w in output && Attr(w, "type") == Str("function_call") {
      var i :| 0 <= i < |output| && output[i] == w;
      TypeRead(items[i]);
    }
    if i :| 0 <= i < |items| && items[i].Called? {
      TypeRead(items[i]);
      assert output[i] in output;
    }
  }

  // ----- failures -----

  /** An error as the API sends it. */
  function ErrorObject(message: string, kind: Option<string>, code: Option<string>): Value {
    Object(With(With(map["message" := Str(message)], "type", Quoted(kind)), "code", Quoted(code)))
  }

  function Quoted(s: Option<string>): Option<Value> {
    if s.Some? then Some(Str(s.value)) else None
  }

  lemma ErrorRead(message: string, kind: Option<string>, code: Option<string>)
    ensures var error := ErrorObject(message, kind, code);
            && Attr(error, "message") == Str(message)
            && Attr(error, "type") == StrOr(kind)
            && Attr(error, "code") == StrOr(code)
  {
  }

  function StrOr(s: Option<string>): Value {
    if s.Some? then Str(s.value) else Null
  }

  /**
   A failure reaches the client with the message, type and code of the error that came with the event, or else of the
   one in its response; for an empty message the error's printed form stands in. [DONE] follows and nothing else.
   */
  lemma FailureRead(cfg: Config, es: seq<Event>, message: string, kind: Option<string>, code: Option<string>,
                    response: Value)
    requires Live(es) == es
    ensures var error := ErrorObject(message, kind, code);
            var told := ErrorChunk(if message == "" then Value.Printed(error) else Str(message),
                                   if kind in {None, Some("")} then Str("api_error") else Str(kind.value), StrOr(code));
            && Output(cfg, es + [Failed(error, response)]) == Begun(cfg, es) + [told, DoneChunk]
            && Output(cfg, es + [Failed(Null, Object(map["error" := error]))]) == Begun(cfg, es) + [told, DoneChunk]
    ensures Output(cfg, es + [Failed(Null, Null)]) ==
            Begun(cfg, es) +
            [ErrorChunk(Str("Responses stream failed"), Str("api_error"), Null), DoneChunk]
  {
    var error := ErrorObject(message, kind, code);
    ErrorRead(message, kind, code);
    assert Attr(Object(map["error" := error]), "error") == error;
    FailedOutput(cfg, es, error, response);
    FailedOutput(cfg, es, Null, Object(map["error" := error]));
    FailedOutput(cfg, es, Null, Null);
    hide Run, Begun, Output, Live, ErrorObject, AttrOr;
  }

  lemma FailedOutput(cfg: Config, es: seq<Event>, error: Value, response: Value)
    requires Live(es) == es
    ensures Output(cfg, es + [Failed(error, response)]) ==
            Begun(cfg, es) + [ErrorOf(Failed(error, response)), DoneChunk]
  {
    var s, e := Reached(cfg, es), StreamMapper.Failed(error, response);
    OutputGrammar(cfg, es);
    hide Run, Step, ErrorOf;
    RunSnoc(cfg, es, e);
    StepIsHandle(cfg, s, e);
    var closing := [ErrorOf(e), DoneChunk];
    assert Output(cfg, es) + ((if s.sentRole then [] else [RoleChunk]) + closing) == Begun(cfg, es) + closing;
  }
}
