/** app/mappers/legacy_log_mapper.py: display steps for clients of the older log format. */
module LegacyLog {
  import opened Sequences
  import opened Strings
  import opened Values
  import opened Wrappers
  import opened Items
  import opened Registry

  /** MessageStep and CallStep have role assistant, ToolStep role tool. */
  datatype LegacyStep =
    | MessageStep(text: string, toolCalls: seq<ToolCall>, citations: seq<Citation>)
    | CallStep(call: ToolCall)
    | ToolStep(callId: Value, name: string, content: Value)

  // ----- bridge display names -----

  /** The display name of the first bridge to `tool` that has a non-empty one. */
  function FirstDisplayName(bridges: seq<BridgeExecution>, tool: Builtin): Option<string> {
    if bridges == [] then None
    else
      var b := bridges[0];
      if b.tool == tool && b.displayName.Some? && b.displayName.value != "" then b.displayName
      else FirstDisplayName(bridges[1..], tool)
  }

  method BridgeNameMap(bridges: seq<BridgeExecution>) returns (names: map<Builtin, string>)
    ensures forall t: Builtin :: if t in names then FirstDisplayName(bridges, t) == Some(names[t])
                                 else FirstDisplayName(bridges, t) == None
  {
    names := map[];
    for i := 0 to |bridges|
      invariant forall t: Builtin :: t in names ==> FirstDisplayName(bridges, t) == Some(names[t])
      invariant forall t: Builtin :: t !in names ==> FirstDisplayName(bridges, t) == FirstDisplayName(bridges[i..], t)
    {
      var b := bridges[i];
      if b.displayName.Some? && b.displayName.value != "" && b.tool !in names {
        names := names[b.tool := b.displayName.value];
      }
    }
  }

  function NameOr(name: Option<string>, default: string): string {
    if name.Some? then name.value else default
  }

  function WebSearchName(bridges: seq<BridgeExecution>): string {
    NameOr(FirstDisplayName(bridges, WebSearchTool), "openai_builtin.web_search")
  }

  function FileSearchName(bridges: seq<BridgeExecution>): string {
    NameOr(FirstDisplayName(bridges, FileSearchTool), "openai_builtin.file_search")
  }

  // ----- the steps an output list stands for -----

  /** The position just after the last message. */
  function SinceMessage(output: seq<Value>): (n: nat)
    ensures n <= |output|
  {
    if output == [] then 0
    else if KindOf(output[|output| - 1]) == Message then |output|
    else SinceMessage(output[..|output| - 1])
  }

  /** Function calls not yet attached to a message. */
  function Pending(output: seq<Value>): seq<ToolCall> {
    FlatMap(ItemToolCalls, output[SinceMessage(output)..])
  }

  function MessageText(item: Value): string {
    Strip(Join(FlatMap(PartTexts, AttrList(item, "content"))))
  }

  function MessageCitations(item: Value): seq<Citation> {
    FlatMap(PartCitations, AttrList(item, "content"))
  }

  function SourceRecord(s: Value): seq<Value> {
    [Dict(map["type" := Attr(s, "type"), "title" := Attr(s, "title"), "url" := Attr(s, "url")])]
  }

  function ResultRecord(r: Value): seq<Value> {
    [Dict(map["file_id" := Attr(r, "file_id"), "filename" := Attr(r, "filename"),
              "score" := Attr(r, "score"), "text" := Attr(r, "text")])]
  }

  function CallAndResult(id: Value, name: string, arguments: Value, content: Value): seq<LegacyStep> {
    [CallStep(ToolCall(id, Str(name), arguments)), ToolStep(id, name, content)]
  }

  /** The steps that `item` adds when `pending` calls are waiting for a message. */
  function StepsOf(item: Value, pending: seq<ToolCall>, bridges: seq<BridgeExecution>): seq<LegacyStep> {
    match KindOf(item)
    case Message => [MessageStep(MessageText(item), pending, MessageCitations(item))]
    case WebSearch =>
      var query := Attr(Attr(item, "action"), "query");
      CallAndResult(AttrOr(item, "id", Str("builtin_web_search")), WebSearchName(bridges),
                    JsonText(Dict(map["query" := query])),
                    JsonText(Dict(map["query" := query, "sources" := List(FlatMap(SourceRecord, Sources(item)))])))
    case FileSearch =>
      CallAndResult(AttrOr(item, "id", Str("builtin_file_search")), FileSearchName(bridges), Str("{}"),
                    JsonText(Dict(map["results" := List(FlatMap(ResultRecord, AttrList(item, "results")))])))
    case CodeInterpreter =>
      CallAndResult(AttrOr(item, "id", Str("builtin_code_interpreter")), "openai_builtin.code_interpreter", Str("{}"),
                    JsonText(Dict(map["outputs" := List(AttrList(item, "outputs"))])))
    case _ => []
  }

  function LegacySteps(output: seq<Value>, bridges: seq<BridgeExecution>): seq<LegacyStep> {
    if output == [] then []
    else
      var before := output[..|output| - 1];
      LegacySteps(before, bridges) + StepsOf(output[|output| - 1], Pending(before), bridges)
  }

  lemma PendingStep(output: seq<Value>, i: nat)
    requires i < |output|
    ensures Pending(output[..i + 1]) ==
            if KindOf(output[i]) == Message then [] else Pending(output[..i]) + ItemToolCalls(output[i])
  {
    hide FlatMap, ItemToolCalls;
    var before, upTo := output[..i], output[..i + 1];
    assert upTo[..i] == before;
    FlatMapNone(ItemToolCalls);
    if KindOf(output[i]) != Message {
      var n := SinceMessage(before);
      assert upTo[n..] == before[n..] + [output[i]];
      FlatMapAppend(ItemToolCalls, before[n..], [output[i]]);
      FlatMapOne(ItemToolCalls, output[i]);
    } else {
      assert upTo[i + 1..] == [];
    }
  }

  lemma StepsStep(output: seq<Value>, i: nat, bridges: seq<BridgeExecution>)
    requires i < |output|
    ensures LegacySteps(output[..i + 1], bridges) ==
            LegacySteps(output[..i], bridges) + StepsOf(output[i], Pending(output[..i]), bridges)
  {
    assert output[..i + 1][..i] == output[..i];
  }

  method ToLegacyLogSteps(resp: Value, bridges: seq<BridgeExecution>) returns (steps: seq<LegacyStep>)
    ensures steps == LegacySteps(AttrList(resp, "output"), bridges)
  {
    steps := [];
    var pending := [];
    var names := BridgeNameMap(bridges);
    var output := AttrList(resp, "output");
    for i := 0 to |output|
      invariant steps == LegacySteps(output[..i], bridges)
      invariant pending == Pending(output[..i])
    {
      var item := output[i];
      StepsStep(output, i, bridges);
      PendingStep(output, i);
      if KindOf(item) == FunctionCall {
        pending := pending + [ToolCall(Attr(item, "call_id"), Attr(item, "name"), Attr(item, "arguments"))];
      } else if KindOf(item) == Message {
        steps := steps + [MessageStep(MessageText(item), pending, MessageCitations(item))];
        pending := [];
      } else {
        var added := BuiltinSteps(item, names, bridges, pending);
        steps := steps + added;
      }
    }
    assert output[..|output|] == output;
  }

  method BuiltinSteps(item: Value, names: map<Builtin, string>, ghost bridges: seq<BridgeExecution>,
                      ghost pending: seq<ToolCall>)
    returns (steps: seq<LegacyStep>)
    requires KindOf(item) != FunctionCall && KindOf(item) != Message
    requires forall t: Builtin :: if t in names then FirstDisplayName(bridges, t) == Some(names[t])
                                  else FirstDisplayName(bridges, t) == None
    ensures steps == StepsOf(item, pending, bridges)
  {
    steps := [];
    match KindOf(item) {
      case WebSearch =>
        var name := if WebSearchTool in names then names[WebSearchTool] else "openai_builtin.web_search";
        var callId := AttrOr(item, "id", Str("builtin_web_search"));
        var query := Attr(Attr(item, "action"), "query");
        var payload := Dict(map["query" := query, "sources" := List(FlatMap(SourceRecord, Sources(item)))]);
        steps := [CallStep(ToolCall(callId, Str(name), JsonText(Dict(map["query" := query]))))];
        steps := steps + [ToolStep(callId, name, JsonText(payload))];
      case FileSearch =>
        var name := if FileSearchTool in names then names[FileSearchTool] else "openai_builtin.file_search";
        var results := FlatMap(ResultRecord, AttrList(item, "results"));
        var callId := AttrOr(item, "id", Str("builtin_file_search"));
        steps := [CallStep(ToolCall(callId, Str(name), Str("{}")))];
        steps := steps + [ToolStep(callId, name, JsonText(Dict(map["results" := List(results)])))];
      case CodeInterpreter =>
        var outputs := AttrList(item, "outputs");
        var callId := AttrOr(item, "id", Str("builtin_code_interpreter"));
        var name := "openai_builtin.code_interpreter";
        steps := [CallStep(ToolCall(callId, Str(name), Str("{}")))];
        steps := steps + [ToolStep(callId, name, JsonText(Dict(map["outputs" := List(outputs)])))];
      case _ =>
    }
  }

  // ----- what the grouping promises -----

  function CallsCarried(step: LegacyStep): seq<ToolCall> {
    if step.MessageStep? then step.toolCalls else []
  }

  /** Grouping conserves calls: those on message steps, then those after the last message, are all of them in order. */
  lemma {:induction false} GroupingConservesCalls(output: seq<Value>, bridges: seq<BridgeExecution>)
    ensures FlatMap(CallsCarried, LegacySteps(output, bridges)) + Pending(output) == FlatMap(ItemToolCalls, output)
  {
    if output == [] {
      FlatMapNone(CallsCarried);
      FlatMapNone(ItemToolCalls);
      hide FlatMap;
      assert output[SinceMessage(output)..] == [];
    } else {
      hide FlatMap, LegacySteps, Pending, StepsOf, ItemToolCalls, CallsCarried, SinceMessage;
      var n := |output| - 1;
      var before, item := output[..n], output[n];
      GroupingConservesCalls(before, bridges);
      assert output[..n + 1] == output;
      PendingStep(output, n);
      StepsStep(output, n, bridges);
      FlatMapSnoc(ItemToolCalls, output);
      CarriedStep(LegacySteps(before, bridges), item, Pending(before), bridges);
      NoCallInMessage(item);
      ghost var carried, waiting, calls :=
        FlatMap(CallsCarried, LegacySteps(before, bridges)), Pending(before), ItemToolCalls(item);
      assert FlatMap(ItemToolCalls, output) == carried + waiting + calls;
      assert carried + (waiting + calls) == carried + waiting + calls;
      assert carried + waiting + [] == carried + waiting && carried + [] == carried;
    }
  }

  lemma NoCallInMessage(item: Value)
    ensures KindOf(item) == Message ==> ItemToolCalls(item) == []
  {
  }

  lemma CarriedStep(steps: seq<LegacyStep>, item: Value, pending: seq<ToolCall>, bridges: seq<BridgeExecution>)
    ensures FlatMap(CallsCarried, steps + StepsOf(item, pending, bridges)) ==
            FlatMap(CallsCarried, steps) + if KindOf(item) == Message then pending else []
  {
    var added := StepsOf(item, pending, bridges);
    FlatMapAppend(CallsCarried, steps, added);
    if |added| == 2 {
      assert added == [added[0]] + [added[1]];
      FlatMapAppend(CallsCarried, [added[0]], [added[1]]);
      FlatMapOne(CallsCarried, added[0]);
      FlatMapOne(CallsCarried, added[1]);
    } else if |added| == 1 {
      FlatMapOne(CallsCarried, added[0]);
    }
  }

  predicate Answers(result: LegacyStep, call: LegacyStep) {
    result.ToolStep? && call.CallStep? && result.callId == call.call.id && call.call.name == Str(result.name)
  }

  /** Each built-in call is followed at once by its own result, and results occur nowhere else. */
  ghost predicate Alternating(steps: seq<LegacyStep>) {
    && (forall i | 0 <= i < |steps| && steps[i].CallStep? :: i + 1 < |steps| && Answers(steps[i + 1], steps[i]))
    && (forall i | 0 <= i < |steps| && steps[i].ToolStep? :: 0 < i && Answers(steps[i], steps[i - 1]))
  }

  lemma AlternatingAppend(a: seq<LegacyStep>, b: seq<LegacyStep>)
    requires Alternating(a) && Alternating(b)
    ensures Alternating(a + b)
  {
    var s := a + b;
    forall i | 0 <= i < |s| && s[i].CallStep? ensures i + 1 < |s| && Answers(s[i + 1], s[i]) {
      if i < |a| { assert Answers(a[i + 1], a[i]); } else { assert Answers(b[i - |a| + 1], b[i - |a|]); }
    }
    forall i | 0 <= i < |s| && s[i].ToolStep? ensures 0 < i && Answers(s[i], s[i - 1]) {
      if i < |a| { assert Answers(a[i], a[i - 1]); } else { assert Answers(b[i - |a|], b[i - |a| - 1]); }
    }
  }

  lemma {:induction false} CallsAndResultsAlternate(output: seq<Value>, bridges: seq<BridgeExecution>)
    ensures Alternating(LegacySteps(output, bridges))
  {
    if output != [] {
      var before := output[..|output| - 1];
      var added := StepsOf(output[|output| - 1], Pending(before), bridges);
      CallsAndResultsAlternate(before, bridges);
      StepsOfAlternate(output[|output| - 1], Pending(before), bridges);
      hide StepsOf, Alternating, Pending;
      AlternatingAppend(LegacySteps(before, bridges), added);
    }
  }

  lemma StepsOfAlternate(item: Value, pending: seq<ToolCall>, bridges: seq<BridgeExecution>)
    ensures Alternating(StepsOf(item, pending, bridges))
  {
    hide FlatMap, AttrOr, AttrList, MessageText, MessageCitations, WebSearchName, FileSearchName;
  }

  predicate IsBuiltinCall(item: Value) {
    KindOf(item) in {WebSearch, FileSearch, CodeInterpreter}
  }

  function Count(output: seq<Value>, p: Value -> bool): nat {
    if output == [] then 0 else Count(output[..|output| - 1], p) + if p(output[|output| - 1]) then 1 else 0
  }

  lemma {:induction false} StepCount(output: seq<Value>, bridges: seq<BridgeExecution>)
    ensures |LegacySteps(output, bridges)| ==
            Count(output, item => KindOf(item) == Message) + 2 * Count(output, IsBuiltinCall)
  {
    if output != [] {
      var before, item := output[..|output| - 1], output[|output| - 1];
      StepCount(before, bridges);
      StepsOfCount(item, Pending(before), bridges);
      hide StepsOf, Pending;
      assert LegacySteps(output, bridges) == LegacySteps(before, bridges) + StepsOf(item, Pending(before), bridges);
    }
  }

  lemma StepsOfCount(item: Value, pending: seq<ToolCall>, bridges: seq<BridgeExecution>)
    ensures |StepsOf(item, pending, bridges)| ==
            if KindOf(item) == Message then 1 else if IsBuiltinCall(item) then 2 else 0
  {
  }
}
