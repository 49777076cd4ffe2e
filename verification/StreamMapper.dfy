/**
 app/mappers/stream_mapper.py: Responses events in, Chat Completions chunks out.
 `Step` says what one turn of the loop does; the class is the loop with its updated variables.
 */
module StreamMapper {
  import opened Sequences
  import opened Wrappers
  import opened Values
  import opened Strings
  import opened Serialization
  import opened Items
  import opened Registry
  import LegacyLog
  import ResponseMapper

  /** Absent or null fields are None. */
  datatype Event =
    | TextDelta(delta: Option<string>)        // response.output_text.delta, response.content_part.delta
    | RefusalDelta(delta: Option<string>)
    | ItemAdded(item: Value)
    | ArgumentsDelta(itemId: Option<string>, callId: Option<string>, name: Option<string>, delta: Option<string>)
    | ItemDone(item: Value)
    | Ended(response: Value)                  // response.completed, response.incomplete
    | Failed(error: Value, response: Value)   // response.failed, error
    | Unhandled

  predicate Terminal(e: Event) {
    e.Ended? || e.Failed?
  }

  datatype Announcement = Announcement(id: Option<string>, name: Option<string>)

  datatype Chunk =
    | RoleChunk
    | ContentChunk(text: string)
    | RefusalChunk(text: string)
    | ToolCallChunk(index: nat, announcement: Option<Announcement>, arguments: Option<string>)
    | FinalChunk(report: Report, finishReason: string)
    | UsageChunk(usage: Value)
    | ErrorChunk(message: Value, kind: Value, code: Value)
    | DoneChunk

  /** The x_openai part of the final chunk. */
  datatype Report = Report(
    citations: seq<Citation>,
    toolEvents: seq<ToolEvent>,
    fileResults: seq<FileResult>,
    interpreterOutputs: seq<InterpreterOutput>,
    legacySteps: seq<LegacyLog.LegacyStep>,
    assistantText: string,
    responseItems: seq<Value>,
    responseId: Value,
    status: Value,
    incompleteDetails: Value)

  datatype Config = Config(bridges: seq<BridgeExecution>, includeUsage: bool)

  datatype State = State(
    sentRole: bool,
    callIndexes: map<string, nat>,
    announced: set<Option<string>>,
    functionItems: map<string, Announcement>,
    completed: seq<Value>,
    citations: seq<Citation>,
    toolEvents: seq<ToolEvent>,
    returned: bool)

  const INITIAL := State(false, map[], {}, map[], [], [], [], false)

  // ----- small helpers of the loop -----

  predicate NonEmpty(s: Option<string>) {
    s.Some? && s.value != ""
  }

  /** a or b, for strings */
  function OrElse(a: Option<string>, b: Option<string>): Option<string> {
    if NonEmpty(a) then a else b
  }

  function AsString(v: Value): Option<string> {
    if v.Str? then Some(v.s) else None
  }

  /** The key under which `call_index` files a call when `n` calls are known. */
  function CallKey(callId: Option<string>, n: nat): string {
    if NonEmpty(callId) then callId.value else "unknown-" + Decimal(n)
  }

  function WithCall(indexes: map<string, nat>, callId: Option<string>): map<string, nat> {
    var key := CallKey(callId, |indexes|);
    if key in indexes then indexes else indexes[key := |indexes|]
  }

  function IndexOf(indexes: map<string, nat>, callId: Option<string>): nat {
    var key := CallKey(callId, |indexes|);
    if key in indexes then indexes[key] else |indexes|
  }

  /** The call that an arguments delta belongs to. */
  function CallOf(items: map<string, Announcement>, e: Event): Option<string>
    requires e.ArgumentsDelta?
  {
    OrElse(e.callId, OrElse(Known(items, e.itemId).id, e.itemId))
  }

  function Known(items: map<string, Announcement>, itemId: Option<string>): Announcement {
    if itemId.Some? && itemId.value in items then items[itemId.value] else Announcement(None, None)
  }

  predicate AddsCall(e: Event) {
    e.ItemAdded? && KindOf(e.item) == FunctionCall
  }

  function AnnouncementOf(item: Value): Announcement {
    Announcement(AsString(Attr(item, "call_id")), AsString(Attr(item, "name")))
  }

  function LastAssistantText(items: seq<Value>): string {
    if items == [] then ""
    else if KindOf(items[|items| - 1]) == Message then LegacyLog.MessageText(items[|items| - 1])
    else LastAssistantText(items[..|items| - 1])
  }

  predicate HasCall(items: seq<Value>) {
    exists i | 0 <= i < |items| :: KindOf(items[i]) == FunctionCall
  }

  predicate OutOfTokens(incompleteDetails: Value) {
    Get(incompleteDetails, "reason") == Str("max_output_tokens")
  }

  function FinishReason(items: seq<Value>, incompleteDetails: Value): string {
    if OutOfTokens(incompleteDetails) then "length" else if HasCall(items) then "tool_calls" else "stop"
  }

  /** Citations as the stream collects them: annotations on every kind of content part. */
  function StreamCitations(item: Value): seq<Citation> {
    match KindOf(item)
    case Message => FlatMap(PartCitations, AttrList(item, "content"))
    case WebSearch => FlatMap(SourceCitation, Sources(item))
    case _ => []
  }

  function StreamToolEvents(item: Value): seq<ToolEvent> {
    match KindOf(item)
    case WebSearch => [EventOf(item, "web_search", SearchPayload(item))]
    case FileSearch => [EventOf(item, "file_search", Null)]
    case CodeInterpreter => [EventOf(item, "code_interpreter", Null)]
    case _ => []
  }

  function ReportOf(citations: seq<Citation>, toolEvents: seq<ToolEvent>, items: seq<Value>, response: Value,
                    bridges: seq<BridgeExecution>): Report {
    Report(
      citations,
      toolEvents,
      FlatMap(ItemFileResults, items),
      FlatMap(ItemInterpreterOutputs, items),
      LegacyLog.LegacySteps(items, bridges),
      LastAssistantText(items),
      Serialize(items),
      Attr(response, "id"),
      if response == Null then Str("completed") else AttrOr(response, "status", Str("completed")),
      Jsonable(Attr(response, "incomplete_details")))
  }

  function ErrorOf(e: Event): Chunk
    requires e.Failed?
  {
    var error := Or(e.error, Attr(e.response, "error"));
    ErrorChunk(
      Or(Attr(error, "message"), if Truthy(error) then Printed(error) else Str("Responses stream failed")),
      Or(Attr(error, "type"), Str("api_error")),
      Attr(error, "code"))
  }

  // ----- one turn of the loop -----

  /** Effect of `e` on everything but the role chunk. */
  function Handle(cfg: Config, s: State, e: Event): (State, seq<Chunk>) {
    match e
    case TextDelta(delta) => (s, if NonEmpty(delta) then [ContentChunk(delta.value)] else [])
    case RefusalDelta(delta) => (s, if NonEmpty(delta) then [RefusalChunk(delta.value)] else [])
    case ItemAdded(item) =>
      if !AddsCall(e) then (s, [])
      else
        var a, itemId := AnnouncementOf(item), AsString(Attr(item, "id"));
        (s.(functionItems := if NonEmpty(itemId) then s.functionItems[itemId.value := a] else s.functionItems,
            callIndexes := WithCall(s.callIndexes, a.id),
            announced := s.announced + {a.id}),
         [ToolCallChunk(IndexOf(s.callIndexes, a.id), Some(a), Some(""))])
    case ArgumentsDelta(itemId, _, name, delta) =>
      var callId := CallOf(s.functionItems, e);
      var a := Announcement(callId, OrElse(name, Known(s.functionItems, itemId).name));
      (s.(callIndexes := WithCall(s.callIndexes, callId), announced := s.announced + {callId}),
       [ToolCallChunk(IndexOf(s.callIndexes, callId), if callId in s.announced then None else Some(a), delta)])
    case ItemDone(item) =>
      (s.(completed := if item == Null then s.completed else s.completed + [item],
          citations := s.citations + StreamCitations(item),
          toolEvents := s.toolEvents + StreamToolEvents(item)),
       [])
    case Ended(response) =>
      var output := AttrList(response, "output");
      var items := if output != [] then output else s.completed;
      var report := ReportOf(s.citations, s.toolEvents, items, response, cfg.bridges);
      (s.(completed := items, returned := true),
       EndChunks(report, FinishReason(items, report.incompleteDetails), cfg, response))
    case Failed(_, _) => (s.(returned := true), [ErrorOf(e), DoneChunk])
    case Unhandled => (s, [])
  }

  function Step(cfg: Config, s: State, e: Event): (State, seq<Chunk>) {
    if s.returned then (s, [])
    else
      var (s', chunks) := Handle(cfg, s.(sentRole := true), e);
      (s', (if s.sentRole then [] else [RoleChunk]) + chunks)
  }

  /** State and output after the events `es`. */
  function Run(cfg: Config, es: seq<Event>): (State, seq<Chunk>) {
    if es == [] then (INITIAL, [])
    else
      var (s, out) := Run(cfg, es[..|es| - 1]);
      var (s', chunks) := Step(cfg, s, es[|es| - 1]);
      (s', out + chunks)
  }

  function Reached(cfg: Config, es: seq<Event>): State {
    Run(cfg, es).0
  }

  function Output(cfg: Config, es: seq<Event>): seq<Chunk> {
    Run(cfg, es).1
  }

  lemma StepIsHandle(cfg: Config, s: State, e: Event)
    requires !s.returned
    ensures var (s', chunks) := Handle(cfg, s.(sentRole := true), e);
            Step(cfg, s, e) == (s', (if s.sentRole then [] else [RoleChunk]) + chunks)
  {
    hide Handle;
  }

  lemma RunSnoc(cfg: Config, es: seq<Event>, e: Event)
    ensures Run(cfg, es + [e]) ==
            (Step(cfg, Reached(cfg, es), e).0, Output(cfg, es) + Step(cfg, Reached(cfg, es), e).1)
  {
    assert (es + [e])[..|es + [e]| - 1] == es;
  }

  /** The chunks that close a completed or incomplete response. */
  function EndChunks(report: Report, reason: string, cfg: Config, response: Value): seq<Chunk> {
    [FinalChunk(report, reason)]
    + (if cfg.includeUsage then [UsageChunk(Attr(response, "usage"))] else [])
    + [DoneChunk]
  }

  // ----- the loop -----

  method AppendMessageCitations(citations: seq<Citation>, item: Value) returns (r: seq<Citation>)
    ensures r == citations + FlatMap(PartCitations, AttrList(item, "content"))
  {
    r := citations;
    var content := AttrList(item, "content");
    for i := 0 to |content|
      invariant r == citations + FlatMap(PartCitations, content[..i])
    {
      FlatMapStep(PartCitations, content, i);
      r := ResponseMapper.AppendAnnotationCitations(r, content[i]);
    }
    assert content[..|content|] == content;
  }

  class Mapper {
    const cfg: Config
    var sentRole: bool
    var callIndexes: map<string, nat>
    var announced: set<Option<string>>
    var functionItems: map<string, Announcement>
    var completed: seq<Value>
    var citations: seq<Citation>
    var toolEvents: seq<ToolEvent>
    var returned: bool

    ghost function Current(): State
      reads this
    {
      State(sentRole, callIndexes, announced, functionItems, completed, citations, toolEvents, returned)
    }

    constructor (bridges: seq<BridgeExecution>, includeUsage: bool)
      ensures cfg == Config(bridges, includeUsage) && Current() == INITIAL
    {
      cfg := Config(bridges, includeUsage);
      sentRole, callIndexes, announced, functionItems := false, map[], {}, map[];
      completed, citations, toolEvents, returned := [], [], [], false;
    }

    method CallIndex(callId: Option<string>) returns (index: nat)
      modifies this`callIndexes
      ensures callIndexes == WithCall(old(callIndexes), callId)
      ensures index == callIndexes[CallKey(callId, old(|callIndexes|))] == IndexOf(old(callIndexes), callId)
    {
      var key := CallKey(callId, |callIndexes|);
      if key !in callIndexes {
        callIndexes := callIndexes[key := |callIndexes|];
      }
      index := callIndexes[key];
    }

    method AddItem(item: Value) returns (chunks: seq<Chunk>)
      modifies this
      ensures (Current(), chunks) == Handle(cfg, old(Current()), ItemAdded(item))
    {
      chunks := [];
      if KindOf(item) == FunctionCall {
        var itemId := AsString(Attr(item, "id"));
        var callId := AsString(Attr(item, "call_id"));
        var name := AsString(Attr(item, "name"));
        if NonEmpty(itemId) {
          functionItems := functionItems[itemId.value := Announcement(callId, name)];
        }
        var index := CallIndex(callId);
        announced := announced + {callId};
        chunks := [ToolCallChunk(index, Some(Announcement(callId, name)), Some(""))];
      }
    }

    method AddArguments(e: Event) returns (chunks: seq<Chunk>)
      requires e.ArgumentsDelta?
      modifies this
      ensures (Current(), chunks) == Handle(cfg, old(Current()), e)
    {
      var known := Known(functionItems, e.itemId);
      var callId := OrElse(e.callId, OrElse(known.id, e.itemId));
      var name := OrElse(e.name, known.name);
      var index := CallIndex(callId);
      var announcement := None;
      if callId !in announced {
        announced := announced + {callId};
        announcement := Some(Announcement(callId, name));
      }
      assert announced == old(announced) + {callId};
      chunks := [ToolCallChunk(index, announcement, e.delta)];
    }

    method CompleteItem(item: Value)
      modifies this
      ensures (Current(), []) == Handle(cfg, old(Current()), ItemDone(item))
    {
      if item != Null {
        completed := completed + [item];
      }
      match KindOf(item) {
        case WebSearch =>
          toolEvents := toolEvents + [EventOf(item, "web_search", SearchPayload(item))];
          citations := citations + FlatMap(SourceCitation, Sources(item));
        case FileSearch =>
          toolEvents := toolEvents + [EventOf(item, "file_search", Null)];
        case CodeInterpreter =>
          toolEvents := toolEvents + [EventOf(item, "code_interpreter", Null)];
        case Message =>
          citations := AppendMessageCitations(citations, item);
        case _ =>
      }
      assert citations == old(citations) + StreamCitations(item);
      assert toolEvents == old(toolEvents) + StreamToolEvents(item);
    }

    method BuildReport(response: Value) returns (report: Report)
      ensures report == ReportOf(citations, toolEvents, completed, response, cfg.bridges)
    {
      var shown := Object(map["output" := List(completed)]);
      assert AttrList(shown, "output") == completed;
      var normalized := ResponseMapper.NormalizeFinalResponse(shown, []);
      var steps := LegacyLog.ToLegacyLogSteps(shown, cfg.bridges);
      var status := if response != Null then AttrOr(response, "status", Str("completed")) else Str("completed");
      report := Report(citations, toolEvents, normalized.fileResults, normalized.interpreterOutputs, steps,
                       LastAssistantText(completed), Serialize(completed), Attr(response, "id"), status,
                       Jsonable(Attr(response, "incomplete_details")));
    }

    method BuildClosing(report: Report, response: Value) returns (chunks: seq<Chunk>)
      ensures chunks == EndChunks(report, FinishReason(completed, report.incompleteDetails), cfg, response)
    {
      var reason := if HasCall(completed) then "tool_calls" else "stop";
      if Get(report.incompleteDetails, "reason") == Str("max_output_tokens") {
        reason := "length";
      }
      chunks := [FinalChunk(report, reason)];
      if cfg.includeUsage {
        chunks := chunks + [UsageChunk(Attr(response, "usage"))];
      }
      chunks := chunks + [DoneChunk];
    }

    method Finish(response: Value) returns (chunks: seq<Chunk>)
      modifies this
      ensures (Current(), chunks) == Handle(cfg, old(Current()), Ended(response))
    {
      hide ReportOf, EndChunks, FinishReason, AttrList;
      if AttrList(response, "output") != [] {
        completed := AttrList(response, "output");
      }
      var report := BuildReport(response);
      chunks := BuildClosing(report, response);
      returned := true;
    }

    /** One turn of the loop. */
    method Take(e: Event) returns (chunks: seq<Chunk>)
      requires !returned
      modifies this
      ensures (Current(), chunks) == Step(cfg, old(Current()), e)
    {
      var head := [];
      if !sentRole {
        sentRole := true;
        head := [RoleChunk];
      }
      assert Current() == old(Current()).(sentRole := true);
      var body := [];
      match e {
        case TextDelta(delta) =>
          if NonEmpty(delta) { body := [ContentChunk(delta.value)]; }
        case RefusalDelta(delta) =>
          if NonEmpty(delta) { body := [RefusalChunk(delta.value)]; }
        case ItemAdded(item) =>
          body := AddItem(item);
        case ArgumentsDelta(_, _, _, _) =>
          body := AddArguments(e);
        case ItemDone(item) =>
          CompleteItem(item);
        case Ended(response) =>
          body := Finish(response);
        case Failed(_, _) =>
          body := [ErrorOf(e), DoneChunk];
          returned := true;
        case Unhandled =>
      }
      assert (Current(), body) == Handle(cfg, old(Current()).(sentRole := true), e);
      chunks := head + body;
    }

    /** The whole generator, driven to its end. */
    method MapStreamEvents(events: seq<Event>) returns (out: seq<Chunk>)
      requires Current() == INITIAL
      modifies this
      ensures (Current(), out) == Run(cfg, events)
    {
      out := [];
      for i := 0 to |events|
        invariant (Current(), out) == Run(cfg, events[..i])
      {
        assert events[..i + 1][..i] == events[..i];
        if returned {
          AfterReturn(cfg, events, i);
          return;
        }
        var chunks := Take(events[i]);
        out := out + chunks;
      }
      assert events[..|events|] == events;
    }
  }

  /** Once the generator has returned, later events change nothing. */
  lemma {:induction false} AfterReturn(cfg: Config, es: seq<Event>, i: nat)
    requires i <= |es| && Reached(cfg, es[..i]).returned
    ensures Run(cfg, es) == Run(cfg, es[..i])
    decreases |es|
  {
    if i == |es| {
      assert es[..i] == es;
    } else {
      var before := es[..|es| - 1];
      assert before[..i] == es[..i];
      AfterReturn(cfg, before, i);
      assert Step(cfg, Reached(cfg, before), es[|es| - 1]) == (Reached(cfg, before), []);
      assert Output(cfg, before) + [] == Output(cfg, before);
    }
  }
}
