/** app/mappers/response_mapper.py: the final response as the non-stream path reports it. */
module ResponseMapper {
  import opened Sequences
  import opened Strings
  import opened Values
  import opened Serialization
  import opened Items
  import LegacyLog
  import Registry

  datatype Normalized = Normalized(
    assistantText: string,
    toolCalls: seq<ToolCall>,
    citations: seq<Citation>,
    toolEvents: seq<ToolEvent>,
    fileResults: seq<FileResult>,
    interpreterOutputs: seq<InterpreterOutput>,
    legacySteps: seq<LegacyLog.LegacyStep>,
    responseItems: seq<Value>,
    responseId: Value,
    status: Value,
    incompleteDetails: Value)

  method AppendAnnotationCitations(citations: seq<Citation>, part: Value) returns (r: seq<Citation>)
    ensures r == citations + PartCitations(part)
  {
    r := citations;
    var annotations := AttrList(part, "annotations");
    for i := 0 to |annotations|
      invariant r == citations + FlatMap(AnnotationCitation, annotations[..i])
    {
      FlatMapStep(AnnotationCitation, annotations, i);
      if Attr(annotations[i], "type") != Str("url_citation") {
        continue;
      }
      r := r + [Citation(Attr(annotations[i], "url"), Attr(annotations[i], "title"))];
    }
    assert annotations[..|annotations|] == annotations;
  }

  /** Text and citations of one message, appended part by part. */
  method ReadMessage(item: Value, texts: seq<string>, citations: seq<Citation>)
    returns (texts': seq<string>, citations': seq<Citation>)
    ensures texts' == texts + FlatMap(PartTexts, AttrList(item, "content"))
    ensures citations' == citations + FlatMap(TextPartCitations, AttrList(item, "content"))
  {
    hide FlatMap, PartTexts, TextPartCitations, AttrList;
    texts', citations' := texts, citations;
    var content := AttrList(item, "content");
    FlatMapNone(PartTexts);
    FlatMapNone(TextPartCitations);
    for i := 0 to |content|
      invariant texts' == texts + FlatMap(PartTexts, content[..i])
      invariant citations' == citations + FlatMap(TextPartCitations, content[..i])
    {
      FlatMapStep(PartTexts, content, i);
      FlatMapStep(TextPartCitations, content, i);
      texts', citations' := ReadPart(content[i], texts', citations');
    }
    assert content[..|content|] == content;
  }

  method ReadPart(part: Value, texts: seq<string>, citations: seq<Citation>)
    returns (texts': seq<string>, citations': seq<Citation>)
    ensures texts' == texts + PartTexts(part)
    ensures citations' == citations + TextPartCitations(part)
  {
    texts', citations' := texts, citations;
    if IsText(part) {
      var text := Attr(part, "text");
      if text.Str? && text.s != "" {
        texts' := texts' + [text.s];
      }
      citations' := AppendAnnotationCitations(citations', part);
    }
  }

  /** What the non-stream path reports for `resp`, field by field over the whole output. */
  function NormalizedOf(resp: Value, bridges: seq<Registry.BridgeExecution>): Normalized {
    var output := AttrList(resp, "output");
    Normalized(
      Strip(Join(FlatMap(ItemTexts, output))),
      FlatMap(ItemToolCalls, output),
      FlatMap(ItemCitations, output),
      FlatMap(ItemToolEvents, output),
      FlatMap(ItemFileResults, output),
      FlatMap(ItemInterpreterOutputs, output),
      LegacyLog.LegacySteps(output, bridges),
      Serialize(output),
      Attr(resp, "id"),
      Attr(resp, "status"),
      Jsonable(Attr(resp, "incomplete_details")))
  }

  lemma UpTo(output: seq<Value>, i: nat)
    requires i < |output|
    ensures FlatMap(ItemTexts, output[..i + 1]) == FlatMap(ItemTexts, output[..i]) + ItemTexts(output[i])
    ensures FlatMap(ItemToolCalls, output[..i + 1]) == FlatMap(ItemToolCalls, output[..i]) + ItemToolCalls(output[i])
    ensures FlatMap(ItemCitations, output[..i + 1]) == FlatMap(ItemCitations, output[..i]) + ItemCitations(output[i])
    ensures FlatMap(ItemToolEvents, output[..i + 1]) ==
            FlatMap(ItemToolEvents, output[..i]) + ItemToolEvents(output[i])
    ensures FlatMap(ItemFileResults, output[..i + 1]) ==
            FlatMap(ItemFileResults, output[..i]) + ItemFileResults(output[i])
    ensures FlatMap(ItemInterpreterOutputs, output[..i + 1]) ==
            FlatMap(ItemInterpreterOutputs, output[..i]) + ItemInterpreterOutputs(output[i])
  {
    assert output[..i + 1][..i] == output[..i];
  }

  method NormalizeFinalResponse(resp: Value, bridges: seq<Registry.BridgeExecution>) returns (n: Normalized)
    ensures n == NormalizedOf(resp, bridges)
  {
    var texts, toolCalls, citations, events, fileResults, outputs := [], [], [], [], [], [];
    var output := AttrList(resp, "output");
    for i := 0 to |output|
      invariant texts == FlatMap(ItemTexts, output[..i])
      invariant toolCalls == FlatMap(ItemToolCalls, output[..i])
      invariant citations == FlatMap(ItemCitations, output[..i])
      invariant events == FlatMap(ItemToolEvents, output[..i])
      invariant fileResults == FlatMap(ItemFileResults, output[..i])
      invariant outputs == FlatMap(ItemInterpreterOutputs, output[..i])
    {
      var item := output[i];
      UpTo(output, i);
      match KindOf(item) {
        case Message =>
          texts, citations := ReadMessage(item, texts, citations);
        case FunctionCall =>
          toolCalls := toolCalls + [ToolCall(Attr(item, "call_id"), Attr(item, "name"), Attr(item, "arguments"))];
        case WebSearch =>
          events := events + [EventOf(item, "web_search", SearchPayload(item))];
          citations := citations + FlatMap(SourceCitation, Sources(item));
        case FileSearch =>
          var results := AttrList(item, "results");
          events := events + [EventOf(item, "file_search", Dict(map["results_count" := Num(|results| as real)]))];
          fileResults := fileResults + FlatMap(ResultOf, results);
        case CodeInterpreter =>
          var outs := AttrList(item, "outputs");
          events := events + [EventOf(item, "code_interpreter", Dict(map["outputs_count" := Num(|outs| as real)]))];
          outputs := outputs + FlatMap(OutputOf, outs);
        case OtherItem =>
      }
    }
    assert output[..|output|] == output;
    var steps := LegacyLog.ToLegacyLogSteps(resp, bridges);
    n := Normalized(Strip(Join(texts)), toolCalls, citations, events, fileResults, outputs, steps,
                    Serialize(output), Attr(resp, "id"), Attr(resp, "status"),
                    Jsonable(Attr(resp, "incomplete_details")));
  }
}
