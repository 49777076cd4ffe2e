/** The final chunk of a stream against the non-stream answer for the same response. */
module StreamAgreement {
  import opened Sequences
  import opened Strings
  import opened Values
  import opened Serialization
  import opened Items
  import opened StreamMapper
  import opened StreamGrammar
  import ResponseMapper
  import LegacyLog

  /** The items of all output_item.done events. */
  function DoneItems(es: seq<Event>): seq<Value> {
    if es == [] then []
    else
      var e := es[|es| - 1];
      DoneItems(es[..|es| - 1]) + if e.ItemDone? && e.item != Null then [e.item] else []
  }

  lemma {:induction false} Collected(cfg: Config, es: seq<Event>)
    requires Live(es) == es
    ensures var s := Reached(cfg, es);
            && !s.returned
            && Holds(s, DoneItems(es))
  {
    OutputGrammar(cfg, es);
    if es != [] {
      var before, e := es[..|es| - 1], es[|es| - 1];
      assert es == before + [e] && e in es;
      LiveInit(es);
      Collected(cfg, before);
      CollectedStep(cfg, Reached(cfg, before), before, e);
      RunSnoc(cfg, before, e);
    }
  }

  /** What the mapper has collected is what the done items carry. */
  predicate Holds(s: State, items: seq<Value>) {
    && s.completed == items
    && s.citations == FlatMap(StreamCitations, items)
    && s.toolEvents == FlatMap(StreamToolEvents, items)
  }

  lemma CollectedStep(cfg: Config, s: State, before: seq<Event>, e: Event)
    requires !s.returned && !Terminal(e) && Holds(s, DoneItems(before))
    ensures Holds(Step(cfg, s, e).0, DoneItems(before + [e]))
  {
    hide FlatMap, DoneItems, StreamCitations, StreamToolEvents, Step;
    StepIsHandle(cfg, s, e);
    DoneItemsSnoc(before, e);
    if e.ItemDone? && e.item != Null {
      FlatMapItem(DoneItems(before), e.item);
    } else {
      NothingDone(cfg, s.(sentRole := true), e);
      hide Handle;
      assert DoneItems(before + [e]) == DoneItems(before);
    }
  }

  lemma NothingDone(cfg: Config, s: State, e: Event)
    requires !Terminal(e) && !(e.ItemDone? && e.item != Null)
    ensures var s' := Handle(cfg, s, e).0;
            s'.completed == s.completed && s'.citations == s.citations && s'.toolEvents == s.toolEvents
  {
    if e.ItemDone? {
      assert StreamCitations(e.item) == [] && StreamToolEvents(e.item) == [];
    }
  }

  lemma FlatMapItem(items: seq<Value>, item: Value)
    ensures FlatMap(StreamCitations, items + [item]) == FlatMap(StreamCitations, items) + StreamCitations(item)
    ensures FlatMap(StreamToolEvents, items + [item]) == FlatMap(StreamToolEvents, items) + StreamToolEvents(item)
  {
    FlatMapOne(StreamCitations, item);
    FlatMapOne(StreamToolEvents, item);
    hide FlatMap, StreamCitations, StreamToolEvents;
    FlatMapAppend(StreamCitations, items, [item]);
    FlatMapAppend(StreamToolEvents, items, [item]);
  }

  lemma DoneItemsSnoc(before: seq<Event>, e: Event)
    ensures DoneItems(before + [e]) == DoneItems(before) + if e.ItemDone? && e.item != Null then [e.item] else []
  {
    assert (before + [e])[..|before + [e]| - 1] == before;
  }

  // ----- citations -----

  /** No URL citation sits on a content part that is not text. */
  predicate CitesInTextOnly(item: Value) {
    KindOf(item) == Message ==>
      forall part | part in AttrList(item, "content") :: IsText(part) || PartCitations(part) == []
  }

  lemma ItemCitationsAgree(item: Value)
    ensures |ItemCitations(item)| < |StreamCitations(item)| || ItemCitations(item) == StreamCitations(item)
    ensures ItemCitations(item) == StreamCitations(item) <==> CitesInTextOnly(item)
  {
    if KindOf(item) == Message {
      FlatMapAgree(TextPartCitations, PartCitations, AttrList(item, "content"));
    }
  }

  lemma {:induction false} CitationsAgree(items: seq<Value>)
    ensures FlatMap(StreamCitations, items) == FlatMap(ItemCitations, items) <==>
            forall item | item in items :: CitesInTextOnly(item)
  {
    forall item | item in items
      ensures |ItemCitations(item)| < |StreamCitations(item)| || ItemCitations(item) == StreamCitations(item)
      ensures ItemCitations(item) == StreamCitations(item) <==> CitesInTextOnly(item)
    {
      ItemCitationsAgree(item);
    }
    FlatMapAgree(ItemCitations, StreamCitations, items);
  }

  // ----- tool events -----

  /** What both paths report of a tool event. */
  function Shared(e: ToolEvent): seq<(Value, string, Value)> {
    [(e.id, e.tool, e.status)]
  }

  lemma ItemEventsAgree(item: Value)
    ensures FlatMap(Shared, StreamToolEvents(item)) == FlatMap(Shared, ItemToolEvents(item))
  {
    if StreamToolEvents(item) != [] {
      FlatMapOne(Shared, StreamToolEvents(item)[0]);
      FlatMapOne(Shared, ItemToolEvents(item)[0]);
    }
  }

  lemma {:induction false} ToolEventsAgree(items: seq<Value>)
    ensures FlatMap(Shared, FlatMap(StreamToolEvents, items)) == FlatMap(Shared, FlatMap(ItemToolEvents, items))
  {
    if items != [] {
      var before, item := items[..|items| - 1], items[|items| - 1];
      ToolEventsAgree(before);
      ItemEventsAgree(item);
      FlatMapSnoc(StreamToolEvents, items);
      FlatMapSnoc(ItemToolEvents, items);
      hide FlatMap;
      FlatMapAppend(Shared, FlatMap(StreamToolEvents, before), StreamToolEvents(item));
      FlatMapAppend(Shared, FlatMap(ItemToolEvents, before), ItemToolEvents(item));
    }
  }

  // ----- finish reasons -----

  /** `_finish_reason_for_normalized_response` */
  function NonStreamFinishReason(n: ResponseMapper.Normalized): string {
    if n.toolCalls != [] then "tool_calls"
    else if Truthy(n.incompleteDetails) && Get(n.incompleteDetails, "reason") == Str("max_output_tokens") then "length"
    else "stop"
  }

  lemma {:induction false} CallsSeen(items: seq<Value>)
    ensures FlatMap(ItemToolCalls, items) != [] <==> HasCall(items)
  {
    if items != [] {
      var before, item := items[..|items| - 1], items[|items| - 1];
      CallsSeen(before);
      if HasCall(before) {
        var i :| 0 <= i < |before| && KindOf(before[i]) == FunctionCall;
        assert KindOf(items[i]) == FunctionCall;
      }
    }
  }

  // ----- the assistant's text -----

  function AllText(items: seq<Value>): string {
    Join(FlatMap(ItemTexts, items))
  }

  /** The items before the last message. */
  function BeforeLastMessage(items: seq<Value>): seq<Value> {
    var n := LegacyLog.SinceMessage(items);
    if n == 0 then [] else items[..n - 1]
  }

  /** The stream reports the last message's text, the non-stream answer the text of all messages. */
  lemma {:induction false} TextsAgree(items: seq<Value>)
    ensures LastAssistantText(items) == Strip(AllText(items)) <==> AllSpace(AllText(BeforeLastMessage(items)))
  {
    if items != [] {
      var before, item := items[..|items| - 1], items[|items| - 1];
      FlatMapSnoc(ItemTexts, items);
      if KindOf(item) == Message {
        FlatMapAppend(Itself, FlatMap(ItemTexts, before), ItemTexts(item));
        StripIgnores(AllText(before), Join(ItemTexts(item)));
      } else {
        TextsAgree(before);
        assert FlatMap(ItemTexts, before) + [] == FlatMap(ItemTexts, before);
        assert BeforeLastMessage(items) == BeforeLastMessage(before);
      }
    }
  }

  // ----- the closing chunks -----

  /** What precedes the closing group: everything so far, or the role chunk if nothing was. */
  function Begun(cfg: Config, es: seq<Event>): seq<Chunk> {
    if es == [] then [RoleChunk] else Output(cfg, es)
  }

  /** The items that the end of the stream reports on: the response's own, or else those announced as done. */
  function Shown(es: seq<Event>, response: Value): seq<Value> {
    if AttrList(response, "output") != [] then AttrList(response, "output") else DoneItems(es)
  }

  predicate RanOut(response: Value) {
    Get(Jsonable(Attr(response, "incomplete_details")), "reason") == Str("max_output_tokens")
  }

  predicate CallsFunction(items: seq<Value>) {
    exists item :: item in items && Attr(item, "type") == Str("function_call")
  }

  /** The report for the items shown, with what was collected on the way. */
  function Reported(cfg: Config, es: seq<Event>, response: Value): Report {
    ReportOf(FlatMap(StreamCitations, DoneItems(es)), FlatMap(StreamToolEvents, DoneItems(es)), Shown(es, response),
             response, cfg.bridges)
  }

  /**
   A stream that ends with a response closes with one final chunk, the usage chunk iff it was asked for, and [DONE].
   The finish reason tells a response that ran out of tokens, else one that calls a function, from any other.
   */
  lemma ClosingSays(cfg: Config, es: seq<Event>, response: Value)
    requires Live(es) == es
    ensures var out, k := Output(cfg, es + [Ended(response)]), |Begun(cfg, es)|;
            && |out| == k + (if cfg.includeUsage then 3 else 2)
            && out[..k] == Begun(cfg, es)
            && out[k].FinalChunk?
            && out[k].report == Reported(cfg, es, response)
            && (out[k].finishReason == "length" <==> RanOut(response))
            && (out[k].finishReason == "tool_calls" <==> !RanOut(response) && CallsFunction(Shown(es, response)))
            && (out[k].finishReason == "stop" <==> !RanOut(response) && !CallsFunction(Shown(es, response)))
            && (cfg.includeUsage ==> out[k + 1] == UsageChunk(Attr(response, "usage")))
            && out[|out| - 1] == DoneChunk
  {
    hide Run, Handle, Reported, DoneItems, Jsonable, AttrList, Shown, RanOut, CallsFunction, FlatMap, Begun, Output;
    hide Live, Reached;
    Collected(cfg, es);
    EndedOutput(cfg, es, response);
    EndHandled(cfg, Reached(cfg, es), es, response);
    var begun, closing := Begun(cfg, es), Handle(cfg, Reached(cfg, es).(sentRole := true), Ended(response)).1;
    assert (begun + closing)[..|begun|] == begun && (begun + closing)[|begun|] == closing[0];
  }

  lemma EndedOutput(cfg: Config, es: seq<Event>, response: Value)
    requires Live(es) == es
    ensures Output(cfg, es + [Ended(response)]) ==
            Begun(cfg, es) + Handle(cfg, Reached(cfg, es).(sentRole := true), Ended(response)).1
  {
    var s := Reached(cfg, es);
    OutputGrammar(cfg, es);
    hide Run, Step, Handle;
    RunSnoc(cfg, es, Ended(response));
    StepIsHandle(cfg, s, Ended(response));
    var closing := Handle(cfg, s.(sentRole := true), Ended(response)).1;
    assert Output(cfg, es) + ((if s.sentRole then [] else [RoleChunk]) + closing) == Begun(cfg, es) + closing;
  }

  lemma EndHandled(cfg: Config, s: State, es: seq<Event>, response: Value)
    requires Holds(s, DoneItems(es))
    ensures var closing := Handle(cfg, s.(sentRole := true), Ended(response)).1;
            && |closing| == (if cfg.includeUsage then 3 else 2)
            && closing[0].FinalChunk?
            && closing[0].report == Reported(cfg, es, response)
            && closing[0].finishReason ==
               (if RanOut(response) then "length"
                else if CallsFunction(Shown(es, response)) then "tool_calls" else "stop")
            && (cfg.includeUsage ==> closing[1] == UsageChunk(Attr(response, "usage")))
            && closing[|closing| - 1] == DoneChunk
  {
    CallsShown(Shown(es, response));
    hide FlatMap, DoneItems, Jsonable, StreamCitations, StreamToolEvents, LegacyLog.LegacySteps, Serialize;
    hide CallsFunction;
  }

  lemma CallsShown(items: seq<Value>)
    ensures HasCall(items) <==> CallsFunction(items)
  {
    if item :| item in items && Attr(item, "type") == Str("function_call") {
      var i :| 0 <= i < |items| && items[i] == item;
      assert KindOf(items[i]) == FunctionCall;
    }
  }

  // ----- the theorem -----

  /**
   When the items announced as done are the response's output, the final chunk and the non-stream answer report the same
   items, results, steps and events. Citations agree iff annotations sit on text only, the assistant's text iff only
   white space precedes the last message, the status iff the response carries one, and the finish reasons iff no
   function call coincides with running out of tokens.
   */
  lemma StreamAgreesWithNonStream(cfg: Config, es: seq<Event>, response: Value)
    requires Live(es) == es && DoneItems(es) == AttrList(response, "output")
    ensures var out, k := Output(cfg, es + [Ended(response)]), |Begun(cfg, es)|;
            && k < |out| && out[..k] == Begun(cfg, es) && out[k].FinalChunk?
            && var r, n := out[k].report, ResponseMapper.NormalizedOf(response, cfg.bridges);
            && r.responseItems == n.responseItems
            && r.responseId == n.responseId
            && r.incompleteDetails == n.incompleteDetails
            && r.fileResults == n.fileResults
            && r.interpreterOutputs == n.interpreterOutputs
            && r.legacySteps == n.legacySteps
            && FlatMap(Shared, r.toolEvents) == FlatMap(Shared, n.toolEvents)
            && (r.citations == n.citations <==>
                forall item | item in AttrList(response, "output") :: CitesInTextOnly(item))
            && (r.assistantText == n.assistantText <==>
                AllSpace(AllText(BeforeLastMessage(AttrList(response, "output")))))
            && (r.status == n.status <==> response.Object? && "status" in response.attrs)
            && (out[k].finishReason == NonStreamFinishReason(n) <==>
                !(CallsFunction(AttrList(response, "output")) && RanOut(response)))
  {
    hide Run, FlatMap, HasCall, Jsonable, DoneItems, Live, AttrList, CitesInTextOnly, Output, CallsFunction;
    hide LegacyLog.LegacySteps;
    var output := AttrList(response, "output");
    ClosingSays(cfg, es, response);
    CitationsAgree(output);
    ToolEventsAgree(output);
    CallsSeen(output);
    CallsShown(output);
    TextsAgree(output);
    assert Shown(es, response) == output;
  }

  // ----- the failing sides -----

  const CALL_ITEM := Object(map["type" := Str("function_call"), "call_id" := Str("c"), "name" := Str("f")])

  const CALL_AT_LIMIT :=
    Object(map["output" := List([CALL_ITEM]), "incomplete_details" := Dict(map["reason" := Str("max_output_tokens")])])

  /** A call in a response that ran out of tokens: "length" in the stream, "tool_calls" outside it. */
  lemma CallAtTokenLimit(cfg: Config, es: seq<Event>)
    requires Live(es) == es
    ensures var out, k := Output(cfg, es + [Ended(CALL_AT_LIMIT)]), |Begun(cfg, es)|;
            k < |out| && out[k].FinalChunk? && out[k].finishReason == "length"
    ensures NonStreamFinishReason(ResponseMapper.NormalizedOf(CALL_AT_LIMIT, [])) == "tool_calls"
  {
    var details := Attr(CALL_AT_LIMIT, "incomplete_details");
    assert Jsonable(details) == details by {
      assert NormalForm(details);
      JsonableFixesNormalForms(details);
    }
    CallsSeen([CALL_ITEM]);
    assert AttrList(CALL_AT_LIMIT, "output") == [CALL_ITEM] && KindOf([CALL_ITEM][0]) == FunctionCall;
    hide FlatMap, Jsonable, LegacyLog.LegacySteps, Run, DoneItems, Live;
    ClosingSays(cfg, es, CALL_AT_LIMIT);
  }

  const CITED := Object(map["type" := Str("url_citation"), "url" := Str("u")])

  const CITING_REFUSAL := Object(map["type" := Str("refusal"), "annotations" := List([CITED])])

  const CITING_MESSAGE := Object(map["type" := Str("message"), "content" := List([CITING_REFUSAL])])

  /** A citation on a content part that is not text: streamed, but not in the non-stream answer. */
  lemma CitationOutsideText()
    ensures StreamCitations(CITING_MESSAGE) == [Citation(Str("u"), Null)] && ItemCitations(CITING_MESSAGE) == []
  {
    assert AttrList(CITING_MESSAGE, "content") == [CITING_REFUSAL];
    assert AttrList(CITING_REFUSAL, "annotations") == [CITED];
    FlatMapOne(PartCitations, CITING_REFUSAL);
    FlatMapOne(TextPartCitations, CITING_REFUSAL);
    FlatMapOne(AnnotationCitation, CITED);
    hide FlatMap;
  }

  const NO_STATUS := Object(map["output" := List([])])

  /** A response that carries no status is reported as completed by the stream alone. */
  lemma StatusMadeUp(cfg: Config, es: seq<Event>)
    requires Live(es) == es
    ensures var out, k := Output(cfg, es + [Ended(NO_STATUS)]), |Begun(cfg, es)|;
            k < |out| && out[k].FinalChunk? && out[k].report.status == Str("completed")
    ensures ResponseMapper.NormalizedOf(NO_STATUS, cfg.bridges).status == Null
  {
    hide FlatMap, Jsonable, DoneItems, LegacyLog.LegacySteps, Serialize, Run, Live;
    ClosingSays(cfg, es, NO_STATUS);
  }

  function Saying(text: string): Value {
    Object(map["type" := Str("message"), "content" := List([Object(map["type" := Str("text"), "text" := Str(text)])])])
  }

  /** Of two messages with text, the stream reports the second only. */
  lemma FirstMessageLeftOut(a: string, b: string)
    requires !AllSpace(a)
    ensures LastAssistantText([Saying(a), Saying(b)]) == Strip(b)
    ensures Strip(AllText([Saying(a), Saying(b)])) == Strip(a + b) != Strip(b)
  {
    var items := [Saying(a), Saying(b)];
    SayingText(a);
    SayingText(b);
    hide FlatMap, ItemTexts, Strip, Saying, LegacyLog.MessageText;
    StripIgnores(a, b);
    assert items == [Saying(a)] + [Saying(b)];
    FlatMapAppend(ItemTexts, [Saying(a)], [Saying(b)]);
    FlatMapOne(ItemTexts, Saying(a));
    FlatMapOne(ItemTexts, Saying(b));
    FlatMapAppend(Itself, ItemTexts(Saying(a)), ItemTexts(Saying(b)));
  }

  lemma SayingText(text: string)
    ensures KindOf(Saying(text)) == Message && Join(ItemTexts(Saying(text))) == text
    ensures LegacyLog.MessageText(Saying(text)) == Strip(text)
  {
    var part := Object(map["type" := Str("text"), "text" := Str(text)]);
    assert AttrList(Saying(text), "content") == [part];
    FlatMapOne(PartTexts, part);
    if text != "" { FlatMapOne(Itself, text); }
  }
}
