/** What the mappers read off one Responses output item. */
module Items {
  import opened Sequences
  import opened Values
  import opened Serialization

  datatype Kind = Message | FunctionCall | WebSearch | FileSearch | CodeInterpreter | OtherItem

  function KindOf(item: Value): Kind {
    var t := Attr(item, "type");
    if t == Str("message") then Message
    else if t == Str("function_call") then FunctionCall
    else if t == Str("web_search_call") then WebSearch
    else if t == Str("file_search_call") then FileSearch
    else if t == Str("code_interpreter_call") then CodeInterpreter
    else OtherItem
  }

  datatype ToolCall = ToolCall(id: Value, name: Value, arguments: Value)
  datatype Citation = Citation(url: Value, title: Value)
  datatype ToolEvent = ToolEvent(id: Value, tool: string, status: Value, payload: Value)
  datatype InterpreterOutput = InterpreterOutput(kind: Value, data: Value)
  datatype FileResult = FileResult(fileId: Value, filename: Value, score: Value, text: Value)

  function ItemToolCalls(item: Value): seq<ToolCall> {
    if KindOf(item) == FunctionCall then
      [ToolCall(Attr(item, "call_id"), Attr(item, "name"), Attr(item, "arguments"))]
    else []
  }

  predicate IsText(part: Value) {
    Attr(part, "type") == Str("output_text") || Attr(part, "type") == Str("text")
  }

  function PartTexts(part: Value): seq<string> {
    var text := Attr(part, "text");
    if IsText(part) && text.Str? && text.s != "" then [text.s] else []
  }

  function ItemTexts(item: Value): seq<string> {
    if KindOf(item) == Message then FlatMap(PartTexts, AttrList(item, "content")) else []
  }

  function AnnotationCitation(annotation: Value): seq<Citation> {
    if Attr(annotation, "type") == Str("url_citation") then
      [Citation(Attr(annotation, "url"), Attr(annotation, "title"))]
    else []
  }

  function PartCitations(part: Value): seq<Citation> {
    FlatMap(AnnotationCitation, AttrList(part, "annotations"))
  }

  function TextPartCitations(part: Value): seq<Citation> {
    if IsText(part) then PartCitations(part) else []
  }

  function SourceCitation(source: Value): seq<Citation> {
    [Citation(Attr(source, "url"), Attr(source, "title"))]
  }

  function Sources(item: Value): seq<Value> {
    AttrList(Attr(item, "action"), "sources")
  }

  function ItemCitations(item: Value): seq<Citation> {
    match KindOf(item)
    case Message => FlatMap(TextPartCitations, AttrList(item, "content"))
    case WebSearch => FlatMap(SourceCitation, Sources(item))
    case _ => []
  }

  function SearchPayload(item: Value): Value {
    Dict(map["query" := Attr(Attr(item, "action"), "query"), "sources_count" := Num(|Sources(item)| as real)])
  }

  /** The id, type and status of a built-in tool event; `payload` differs between the two paths. */
  function EventOf(item: Value, tool: string, payload: Value): ToolEvent {
    ToolEvent(AttrOr(item, "id", Str(tool)), tool, AttrOr(item, "status", Str("completed")), payload)
  }

  function ItemToolEvents(item: Value): seq<ToolEvent> {
    match KindOf(item)
    case WebSearch => [EventOf(item, "web_search", SearchPayload(item))]
    case FileSearch =>
      [EventOf(item, "file_search", Dict(map["results_count" := Num(|AttrList(item, "results")| as real)]))]
    case CodeInterpreter =>
      [EventOf(item, "code_interpreter", Dict(map["outputs_count" := Num(|AttrList(item, "outputs")| as real)]))]
    case _ => []
  }

  function ResultOf(r: Value): seq<FileResult> {
    [FileResult(Attr(r, "file_id"), Attr(r, "filename"), Attr(r, "score"), Attr(r, "text"))]
  }

  function ItemFileResults(item: Value): seq<FileResult> {
    if KindOf(item) == FileSearch then FlatMap(ResultOf, AttrList(item, "results")) else []
  }

  function OutputOf(out: Value): seq<InterpreterOutput> {
    [InterpreterOutput(Attr(out, "type"), Jsonable(out))]
  }

  function ItemInterpreterOutputs(item: Value): seq<InterpreterOutput> {
    if KindOf(item) == CodeInterpreter then FlatMap(OutputOf, AttrList(item, "outputs")) else []
  }
}
