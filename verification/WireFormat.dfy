/**
 The output items of a response as the API sends them, and what the gateway reports of them. An item is encoded field by
 field under its wire names; what it is reported as is told from the item, not from the encoding.
 */
module WireFormat {
  import opened Sequences
  import opened Strings
  import opened Wrappers
  import opened Values
  import opened Serialization
  import opened Items
  import opened Registry
  import opened LegacyLog
  import opened StreamMapper
  import opened StreamGrammar
  import opened StreamAgreement
  import ResponseMapper

  // ----- what the API sends -----

  datatype Annotation = UrlCitation(url: Value, title: Value) | FileCitation(url: Value, title: Value)

  datatype Part =
    | OutputText(text: string, annotations: seq<Annotation>)
    | PlainText(text: string, annotations: seq<Annotation>)
    | Refusal(text: string, annotations: seq<Annotation>)

  datatype Source = Source(kind: Value, url: Value, title: Value)

  datatype Hit = Hit(fileId: Value, filename: Value, score: Value, text: Value)

  datatype CodeOutput = Logs(logs: string) | Picture(url: string)

  datatype Item =
    | Said(parts: seq<Part>)
    | Called(callId: Value, name: Value, arguments: Value)
    | SearchedWeb(id: Option<Value>, status: Option<Value>, query: Value, sources: seq<Source>)
    | SearchedFiles(id: Option<Value>, status: Option<Value>, hits: seq<Hit>)
    | RanCode(id: Option<Value>, status: Option<Value>, outputs: seq<CodeOutput>)
    | Reasoned(summary: Value)

  function WireAnnotation(a: Annotation): seq<Value> {
    match a
    case UrlCitation(url, title) => [Object(map["type" := Str("url_citation"), "url" := url, "title" := title])]
    case FileCitation(url, title) => [Object(map["type" := Str("file_citation"), "url" := url, "title" := title])]
  }

  function WirePart(p: Part): seq<Value> {
    var annotations := List(FlatMap(WireAnnotation, p.annotations));
    match p
    case OutputText(text, _) =>
      [Object(map["type" := Str("output_text"), "text" := Str(text), "annotations" := annotations])]
    case PlainText(text, _) => [Object(map["type" := Str("text"), "text" := Str(text), "annotations" := annotations])]
    case Refusal(text, _) => [Object(map["type" := Str("refusal"), "text" := Str(text), "annotations" := annotations])]
  }

  function WireSource(s: Source): seq<Value> {
    [Object(map["type" := s.kind, "url" := s.url, "title" := s.title])]
  }

  function WireHit(h: Hit): seq<Value> {
    [Object(map["file_id" := h.fileId, "filename" := h.filename, "score" := h.score, "text" := h.text])]
  }

  function WireOutput(o: CodeOutput): seq<Value> {
    match o
    case Logs(logs) => [Object(map["type" := Str("logs"), "logs" := Str(logs)])]
    case Picture(url) => [Object(map["type" := Str("image"), "url" := Str(url)])]
  }

  function With(fields: map<string, Value>, name: string, value: Option<Value>): map<string, Value> {
    if value.Some? then fields[name := value.value] else fields
  }

  function Encoded(item: Item): Value {
    match item
    case Said(parts) => Object(map["type" := Str("message"), "content" := List(FlatMap(WirePart, parts))])
    case Called(callId, name, arguments) =>
      Object(map["type" := Str("function_call"), "call_id" := callId, "name" := name, "arguments" := arguments])
    case SearchedWeb(id, status, query, sources) =>
      var action := Object(map["query" := query, "sources" := List(FlatMap(WireSource, sources))]);
      var fields := map["type" := Str("web_search_call"), "action" := action];
      Object(With(With(fields, "id", id), "status", status))
    case SearchedFiles(id, status, hits) =>
      var fields := map["type" := Str("file_search_call"), "results" := List(FlatMap(WireHit, hits))];
      Object(With(With(fields, "id", id), "status", status))
    case RanCode(id, status, outputs) =>
      var fields := map["type" := Str("code_interpreter_call"), "outputs" := List(FlatMap(WireOutput, outputs))];
      Object(With(With(fields, "id", id), "status", status))
    case Reasoned(summary) => Object(map["type" := Str("reasoning"), "summary" := summary])
  }

  function WireItem(item: Item): seq<Value> {
    [Encoded(item)]
  }

  // ----- what is to be reported -----

  function Calls(item: Item): seq<ToolCall> {
    if item.Called? then [ToolCall(item.callId, item.name, item.arguments)] else []
  }

  function Texts(p: Part): seq<string> {
    if p.Refusal? || p.text == "" then [] else [p.text]
  }

  function ItemTexts(item: Item): seq<string> {
    if item.Said? then FlatMap(Texts, item.parts) else []
  }

  function Cited(a: Annotation): seq<Citation> {
    if a.UrlCitation? then [Citation(a.url, a.title)] else []
  }

  /** The citations of every part, and of those that are text. */
  function PartCited(p: Part): seq<Citation> {
    FlatMap(Cited, p.annotations)
  }

  function TextCited(p: Part): seq<Citation> {
    if p.Refusal? then [] else PartCited(p)
  }

  function SourceCited(s: Source): seq<Citation> {
    [Citation(s.url, s.title)]
  }

  function AnswerCited(item: Item): seq<Citation> {
    match item
    case Said(parts) => FlatMap(TextCited, parts)
    case SearchedWeb(_, _, _, sources) => FlatMap(SourceCited, sources)
    case _ => []
  }

  function StreamCited(item: Item): seq<Citation> {
    match item
    case Said(parts) => FlatMap(PartCited, parts)
    case SearchedWeb(_, _, _, sources) => FlatMap(SourceCited, sources)
    case _ => []
  }

  function Or(value: Option<Value>, default: string): Value {
    if value.Some? then value.value else Str(default)
  }

  function Counted(name: string, n: nat): map<string, Value> {
    map[name := Num(n as real)]
  }

  /** The event of a built-in tool. The stream tells the payload of web search alone. */
  function Events(item: Item, streamed: bool): seq<ToolEvent> {
    match item
    case SearchedWeb(id, status, query, sources) =>
      [ToolEvent(Or(id, "web_search"), "web_search", Or(status, "completed"),
                 Dict(map["query" := query, "sources_count" := Num(|sources| as real)]))]
    case SearchedFiles(id, status, hits) =>
      [ToolEvent(Or(id, "file_search"), "file_search", Or(status, "completed"),
                 if streamed then Null else Dict(Counted("results_count", |hits|)))]
    case RanCode(id, status, outputs) =>
      [ToolEvent(Or(id, "code_interpreter"), "code_interpreter", Or(status, "completed"),
                 if streamed then Null else Dict(Counted("outputs_count", |outputs|)))]
    case _ => []
  }

  function Found(h: Hit): seq<FileResult> {
    [FileResult(h.fileId, h.filename, h.score, h.text)]
  }

  function Hits(item: Item): seq<FileResult> {
    if item.SearchedFiles? then FlatMap(Found, item.hits) else []
  }

  function Printed(o: CodeOutput): seq<InterpreterOutput> {
    match o
    case Logs(logs) => [InterpreterOutput(Str("logs"), Dict(map["type" := Str("logs"), "logs" := Str(logs)]))]
    case Picture(url) => [InterpreterOutput(Str("image"), Dict(map["type" := Str("image"), "url" := Str(url)]))]
  }

  function Outputs(item: Item): seq<InterpreterOutput> {
    if item.RanCode? then FlatMap(Printed, item.outputs) else []
  }

  // ----- encoded lists -----

  lemma {:induction false} EncodedLength<T>(wire: T -> seq<Value>, s: seq<T>)
    requires forall x | x in s :: |wire(x)| == 1
    ensures |FlatMap(wire, s)| == |s|
  {
    if s != [] {
      EncodedLength(wire, s[..|s| - 1]);
    }
  }

  lemma TextsRead(parts: seq<Part>)
    ensures FlatMap(PartTexts, FlatMap(WirePart, parts)) == FlatMap(Texts, parts)
  {
    forall p | p in parts ensures Texts(p) == FlatMap(PartTexts, WirePart(p)) {
      FlatMapOne(PartTexts, WirePart(p)[0]);
    }
    FlatMapCompose(PartTexts, WirePart, Texts, parts);
  }

  lemma AnnotationsRead(annotations: seq<Annotation>)
    ensures FlatMap(AnnotationCitation, FlatMap(WireAnnotation, annotations)) == FlatMap(Cited, annotations)
  {
    forall a | a in annotations ensures Cited(a) == FlatMap(AnnotationCitation, WireAnnotation(a)) {
      FlatMapOne(AnnotationCitation, WireAnnotation(a)[0]);
    }
    FlatMapCompose(AnnotationCitation, WireAnnotation, Cited, annotations);
  }

  lemma PartRead(p: Part)
    ensures PartCitations(WirePart(p)[0]) == PartCited(p)
    ensures IsText(WirePart(p)[0]) <==> !p.Refusal?
  {
    AnnotationsRead(p.annotations);
    hide FlatMap;
  }

  lemma CitationsRead(parts: seq<Part>)
    ensures FlatMap(PartCitations, FlatMap(WirePart, parts)) == FlatMap(PartCited, parts)
    ensures FlatMap(TextPartCitations, FlatMap(WirePart, parts)) == FlatMap(TextCited, parts)
  {
    forall p | p in parts
      ensures PartCited(p) == FlatMap(PartCitations, WirePart(p))
      ensures TextCited(p) == FlatMap(TextPartCitations, WirePart(p))
    {
      PartRead(p);
      FlatMapOne(PartCitations, WirePart(p)[0]);
      FlatMapOne(TextPartCitations, WirePart(p)[0]);
      hide FlatMap, IsText, PartCitations, PartCited;
    }
    FlatMapCompose(PartCitations, WirePart, PartCited, parts);
    FlatMapCompose(TextPartCitations, WirePart, TextCited, parts);
  }

  lemma SourcesRead(sources: seq<Source>)
    ensures FlatMap(SourceCitation, FlatMap(WireSource, sources)) == FlatMap(SourceCited, sources)
    ensures |FlatMap(WireSource, sources)| == |sources|
  {
    forall s | s in sources ensures SourceCited(s) == FlatMap(SourceCitation, WireSource(s)) {
      FlatMapOne(SourceCitation, WireSource(s)[0]);
    }
    FlatMapCompose(SourceCitation, WireSource, SourceCited, sources);
    EncodedLength(WireSource, sources);
  }

  lemma HitsRead(hits: seq<Hit>)
    ensures FlatMap(ResultOf, FlatMap(WireHit, hits)) == FlatMap(Found, hits)
    ensures |FlatMap(WireHit, hits)| == |hits|
  {
    forall h | h in hits ensures Found(h) == FlatMap(ResultOf, WireHit(h)) {
      FlatMapOne(ResultOf, WireHit(h)[0]);
    }
    FlatMapCompose(ResultOf, WireHit, Found, hits);
    EncodedLength(WireHit, hits);
  }

  lemma OutputFields(kind: string, name: string, v: string)
    requires name != "type" && name != "" && name[0] != '_'
    ensures Jsonable(Object(map["type" := Str(kind), name := Str(v)])) == Dict(map["type" := Str(kind), name := Str(v)])
  {
    var fields := map["type" := Str(kind), name := Str(v)];
    assert Jsonable(Str(kind)) == Str(kind) && Jsonable(Str(v)) == Str(v);
    assert Jsonable(Object(fields)).fields == fields;
  }

  lemma OutputRead(o: CodeOutput)
    ensures OutputOf(WireOutput(o)[0]) == Printed(o)
  {
    match o
    case Logs(logs) => OutputFields("logs", "logs", logs); hide Jsonable;
    case Picture(url) => OutputFields("image", "url", url); hide Jsonable;
  }

  lemma OutputsRead(outputs: seq<CodeOutput>)
    ensures FlatMap(OutputOf, FlatMap(WireOutput, outputs)) == FlatMap(Printed, outputs)
    ensures |FlatMap(WireOutput, outputs)| == |outputs|
  {
    forall o | o in outputs ensures Printed(o) == FlatMap(OutputOf, WireOutput(o)) {
      OutputRead(o);
      FlatMapOne(OutputOf, WireOutput(o)[0]);
    }
    FlatMapCompose(OutputOf, WireOutput, Printed, outputs);
    EncodedLength(WireOutput, outputs);
  }

  // ----- one item -----

  lemma KindRead(item: Item)
    ensures KindOf(Encoded(item)) ==
            match item
            case Said(_) => Message
            case Called(_, _, _) => FunctionCall
            case SearchedWeb(_, _, _, _) => WebSearch
            case SearchedFiles(_, _, _) => FileSearch
            case RanCode(_, _, _) => CodeInterpreter
            case Reasoned(_) => OtherItem
  {
    hide FlatMap;
  }

  /** What both paths read off the wire is what is to be reported of the item. */
  predicate ReadAs(w: Value, item: Item) {
    && Items.ItemTexts(w) == ItemTexts(item)
    && ItemToolCalls(w) == Calls(item)
    && ItemCitations(w) == AnswerCited(item)
    && StreamCitations(w) == StreamCited(item)
    && ItemToolEvents(w) == Events(item, false)
    && StreamToolEvents(w) == Events(item, true)
    && ItemFileResults(w) == Hits(item)
    && ItemInterpreterOutputs(w) == Outputs(item)
  }

  lemma SaidFields(item: Item)
    requires item.Said?
    ensures AttrList(Encoded(item), "content") == FlatMap(WirePart, item.parts)
  {
    hide FlatMap;
  }

  lemma SaidRead(item: Item)
    requires item.Said?
    ensures ReadAs(Encoded(item), item)
  {
    hide FlatMap, KindOf, Encoded, AttrOr, AttrList;
    SaidFields(item);
    KindRead(item);
    TextsRead(item.parts);
    CitationsRead(item.parts);
  }

  lemma CalledRead(item: Item)
    requires item.Called? || item.Reasoned?
    ensures ReadAs(Encoded(item), item)
  {
    KindRead(item);
    hide FlatMap, KindOf;
  }

  /** The id and status of a built-in call. */
  lemma IdentityRead(fields: map<string, Value>, id: Option<Value>, status: Option<Value>, tool: string)
    requires "id" !in fields && "status" !in fields
    ensures var w := Object(With(With(fields, "id", id), "status", status));
            && AttrOr(w, "id", Str(tool)) == Or(id, tool)
            && AttrOr(w, "status", Str("completed")) == Or(status, "completed")
            && forall k | k != "id" && k != "status" :: Attr(w, k) == Attr(Object(fields), k)
  {
  }

  lemma WebFields(item: Item, default: string)
    requires item.SearchedWeb?
    ensures var w := Encoded(item);
            && AttrOr(w, "id", Str(default)) == Or(item.id, default)
            && AttrOr(w, "status", Str("completed")) == Or(item.status, "completed")
            && Attr(Attr(w, "action"), "query") == item.query
            && Sources(w) == FlatMap(WireSource, item.sources)
  {
    hide FlatMap, With;
    var action := Object(map["query" := item.query, "sources" := List(FlatMap(WireSource, item.sources))]);
    var fields := map["type" := Str("web_search_call"), "action" := action];
    IdentityRead(fields, item.id, item.status, default);
    assert Attr(Object(fields), "action") == action;
  }

  lemma FileFields(item: Item, default: string)
    requires item.SearchedFiles?
    ensures var w := Encoded(item);
            && AttrOr(w, "id", Str(default)) == Or(item.id, default)
            && AttrOr(w, "status", Str("completed")) == Or(item.status, "completed")
            && AttrList(w, "results") == FlatMap(WireHit, item.hits)
  {
    hide FlatMap, With;
    var fields := map["type" := Str("file_search_call"), "results" := List(FlatMap(WireHit, item.hits))];
    IdentityRead(fields, item.id, item.status, default);
    assert Attr(Object(fields), "results") == List(FlatMap(WireHit, item.hits));
  }

  lemma CodeFields(item: Item, default: string)
    requires item.RanCode?
    ensures var w := Encoded(item);
            && AttrOr(w, "id", Str(default)) == Or(item.id, default)
            && AttrOr(w, "status", Str("completed")) == Or(item.status, "completed")
            && AttrList(w, "outputs") == FlatMap(WireOutput, item.outputs)
  {
    hide FlatMap, With;
    var fields := map["type" := Str("code_interpreter_call"), "outputs" := List(FlatMap(WireOutput, item.outputs))];
    IdentityRead(fields, item.id, item.status, default);
    assert Attr(Object(fields), "outputs") == List(FlatMap(WireOutput, item.outputs));
  }

  lemma WebRead(item: Item)
    requires item.SearchedWeb?
    ensures ReadAs(Encoded(item), item)
  {
    hide FlatMap, KindOf, Encoded, AttrOr, AttrList, Sources;
    KindRead(item);
    SourcesRead(item.sources);
    WebFields(item, "web_search");
  }

  lemma FilesRead(item: Item)
    requires item.SearchedFiles?
    ensures ReadAs(Encoded(item), item)
  {
    hide FlatMap, KindOf, Encoded, AttrOr, AttrList;
    KindRead(item);
    HitsRead(item.hits);
    FileFields(item, "file_search");
  }

  lemma CodeRead(item: Item)
    requires item.RanCode?
    ensures ReadAs(Encoded(item), item)
  {
    hide FlatMap, KindOf, Encoded, AttrOr, AttrList;
    KindRead(item);
    OutputsRead(item.outputs);
    CodeFields(item, "code_interpreter");
  }

  lemma ItemRead(item: Item)
    ensures ReadAs(Encoded(item), item)
  {
    hide ReadAs, Encoded;
    match item
    case Said(_) => SaidRead(item);
    case SearchedWeb(_, _, _, _) => WebRead(item);
    case SearchedFiles(_, _, _) => FilesRead(item);
    case RanCode(_, _, _) => CodeRead(item);
    case _ => CalledRead(item);
  }
}
