/**
 Translation preserves meaning or fails. Both sides are read as a sequence of atoms: the chat messages by the Chat
 Completions shapes, the input items by the Responses shapes.
 */
module TranslationAtoms {
  import opened Sequences
  import opened Wrappers
  import opened Values
  import opened RequestMapper

  datatype Piece =
    | Text(text: Value)                                 // texts, and refusals as text
    | Image(url: Value, detail: Value)
    | File(data: Value, id: Value, filename: Value)
    | Breakpoint(mark: Value)

  datatype Atom =
    | Says(role: Value, said: Piece)
    | Call(id: Value, name: Value, arguments: Value)
    | Answer(callId: Value)
    | AnswerPiece(piece: Piece)

  function Mark(part: Value): seq<Piece> {
    if Get(part, "prompt_cache_breakpoint") == Null then [] else [Breakpoint(Get(part, "prompt_cache_breakpoint"))]
  }

  function FileOf(spec: Value): Piece {
    File(Get(spec, "file_data"), Get(spec, "file_id"), Get(spec, "filename"))
  }

  // ----- Responses side -----

  function ResponsesPart(part: Value): seq<Piece> {
    var t := Get(part, "type");
    if t == Str("input_text") then [Text(Get(part, "text"))] + Mark(part)
    else if t == Str("input_image") then [Image(Get(part, "image_url"), Get(part, "detail"))] + Mark(part)
    else if t == Str("input_file") then [FileOf(part)] + Mark(part)
    else []
  }

  function ResponsesContent(content: Value): seq<Piece> {
    if content == Null || content == Str("") then []
    else if content.List? then FlatMap(ResponsesPart, content.items)
    else [Text(content)]
  }

  function Said(role: Value, pieces: seq<Piece>): seq<Atom> {
    seq(|pieces|, i requires 0 <= i < |pieces| => Says(role, pieces[i]))
  }

  function Answered(pieces: seq<Piece>): seq<Atom> {
    seq(|pieces|, i requires 0 <= i < |pieces| => AnswerPiece(pieces[i]))
  }

  function ItemAtoms(item: Value): seq<Atom> {
    var t := Get(item, "type");
    if t == Str("function_call") then [Call(Get(item, "call_id"), Get(item, "name"), Get(item, "arguments"))]
    else if t == Str("function_call_output") then
      [Answer(Get(item, "call_id"))] + Answered(ResponsesContent(Get(item, "output")))
    else Said(Get(item, "role"), ResponsesContent(Get(item, "content")))
  }

  // ----- Chat Completions side -----

  function ImagePiece(image: Value): Piece {
    if IsStr(image) then Image(image, Null) else Image(Get(image, "url"), Get(image, "detail"))
  }

  function ChatPart(part: Value): seq<Piece> {
    var t := Get(part, "type");
    if t == Str("text") then [Text(Get(part, "text"))] + Mark(part)
    else if t == Str("image_url") then [ImagePiece(Get(part, "image_url"))] + Mark(part)
    else if t == Str("file") then [FileOf(Get(part, "file"))] + Mark(part)
    else if t == Str("refusal") then [Text(Get(part, "refusal"))]
    else ResponsesPart(part)
  }

  /** Content of a message; anything but null, text, a list or an object is read as its printed form. */
  function ChatContent(content: Value): seq<Piece> {
    if content == Null || content == Str("") then []
    else if IsStr(content) then [Text(content)]
    else if content.List? then FlatMap(ChatPart, content.items)
    else if content.Dict? then ChatPart(content)
    else [Text(Printed(content))]
  }

  /** Content of a tool message, where an object stands for its JSON text. */
  function ToolContent(content: Value): seq<Piece> {
    if content == Null || content == Str("") then []
    else if IsStr(content) then [Text(content)]
    else if content.List? then FlatMap(ChatPart, content.items)
    else [Text(JsonText(content))]
  }

  function CallAtom(c: ChatCall): seq<Atom> {
    [Call(StrOrNull(c.id), StrOrNull(c.name), if c.arguments.Some? then c.arguments.value else Str("{}"))]
  }

  /** The role as the client wrote it. */
  function Sender(role: Role): string {
    match role
    case Developer => "developer"
    case System => "system"
    case User => "user"
    case Assistant => "assistant"
    case Tool => "tool"
    case Function => "function"
  }

  function BodyAtoms(m: Message): seq<Atom> {
    if m.role == Tool then [Answer(StrOrNull(m.toolCallId))] + Answered(ToolContent(m.content))
    else Said(Str(Sender(m.role)), ChatContent(m.content))
  }

  function RefusalAtoms(m: Message): seq<Atom> {
    if m.refusal == Null then [] else [Says(Str(Sender(m.role)), Text(m.refusal))]
  }

  /** Fields a message carries but its role has no use for. */
  function StrayAtoms(m: Message): seq<Atom> {
    if m.role != Tool && m.toolCallId.Some? then [Answer(StrOrNull(m.toolCallId))] else []
  }

  function MessageAtoms(m: Message): seq<Atom> {
    BodyAtoms(m) + RefusalAtoms(m) + FlatMap(CallAtom, m.toolCalls) + StrayAtoms(m)
  }

  // ----- parts -----

  lemma BreakpointRead(part: Value, target: map<string, Value>)
    requires WithBreakpoint(part, target).Ok? && "prompt_cache_breakpoint" !in target
    ensures var r := WithBreakpoint(part, target).value;
            && Mark(r) == Mark(part)
            && forall k | k != "prompt_cache_breakpoint" :: Get(r, k) == Get(Dict(target), k)
  {
  }

  lemma TextPartRead(part: Value)
    requires part.Dict? && TextPart(part).Ok?
    ensures ResponsesPart(TextPart(part).value) == [Text(Get(part, "text"))] + Mark(part)
  {
    BreakpointRead(part, map["type" := Str("input_text"), "text" := Get(part, "text")]);
  }

  lemma ImagePartRead(part: Value)
    requires part.Dict? && ImagePart(part).Ok?
    ensures ResponsesPart(ImagePart(part).value) == [ImagePiece(Get(part, "image_url"))] + Mark(part)
  {
    var (url, detail) := ImageOf(Get(part, "image_url")).value;
    var target := map["type" := Str("input_image"), "image_url" := url];
    var target' := if detail == Null then target else target["detail" := detail];
    assert Get(Dict(target'), "type") == Str("input_image") && Get(Dict(target'), "image_url") == url;
    assert Get(Dict(target'), "detail") == detail && "prompt_cache_breakpoint" !in target';
    BreakpointRead(part, target');
  }

  lemma WithFieldRead(target: map<string, Value>, source: Value, key: string)
    requires key !in target
    ensures Get(Dict(WithField(target, source, key)), key) == Get(source, key)
    ensures forall k | k != key :: Get(Dict(WithField(target, source, key)), k) == Get(Dict(target), k)
    ensures forall k | k != key :: k in WithField(target, source, key) <==> k in target
  {
  }

  lemma FilePartRead(part: Value)
    requires part.Dict? && FilePart(part).Ok?
    ensures ResponsesPart(FilePart(part).value) == [FileOf(Get(part, "file"))] + Mark(part)
  {
    var spec := Get(part, "file");
    FileFieldsRead(spec);
    var t := WithField(WithField(WithField(map["type" := Str("input_file")], spec, "file_data"), spec, "file_id"),
                       spec, "filename");
    BreakpointRead(part, t);
    hide WithField, WithBreakpoint, Mark, OnlyKnown;
    assert FilePart(part) == WithBreakpoint(part, t);
  }

  lemma FileFieldsRead(spec: Value)
    ensures var t := WithField(WithField(WithField(map["type" := Str("input_file")], spec, "file_data"),
                                         spec, "file_id"), spec, "filename");
            && FileOf(Dict(t)) == FileOf(spec) && Get(Dict(t), "type") == Str("input_file")
            && "prompt_cache_breakpoint" !in t
  {
    var t0 := map["type" := Str("input_file")];
    var t1 := WithField(t0, spec, "file_data");
    var t2 := WithField(t1, spec, "file_id");
    var t3 := WithField(t2, spec, "filename");
    WithFieldRead(t0, spec, "file_data");
    WithFieldRead(t1, spec, "file_id");
    WithFieldRead(t2, spec, "filename");
    hide WithField;
  }

  /** A part that translates keeps its pieces. */
  lemma PartPreserved(part: Value)
    requires ContentPart(part).Ok?
    ensures ResponsesPart(ContentPart(part).value) == ChatPart(part)
  {
    var t := Get(part, "type");
    if t == Str("text") {
      TextPartRead(part);
    } else if t == Str("image_url") {
      ImagePartRead(part);
    } else if t == Str("file") {
      FilePartRead(part);
    } else if t == Str("refusal") {
      assert Mark(RefusalPart(part).value) == [];
    }
  }

  lemma {:induction false} PartsPreserved(parts: seq<Value>)
    requires ContentParts(parts).Ok?
    ensures FlatMap(ResponsesPart, ContentParts(parts).value) == FlatMap(ChatPart, parts)
  {
    if parts != [] {
      var before, last := parts[..|parts| - 1], parts[|parts| - 1];
      PartsPreserved(before);
      PartPreserved(last);
      assert ContentParts(parts).value[..|parts| - 1] == ContentParts(before).value by { PartsLength(before); }
      PartsLength(before);
    }
  }

  lemma {:induction false} PartsLength(parts: seq<Value>)
    requires ContentParts(parts).Ok?
    ensures |ContentParts(parts).value| == |parts|
  {
    if parts != [] {
      PartsLength(parts[..|parts| - 1]);
    }
  }

  /** Message content that translates keeps its pieces. */
  lemma ContentPreserved(content: Value)
    requires MessageContent(content).Ok?
    ensures ResponsesContent(MessageContent(content).value) == ChatContent(content)
  {
    if content.List? {
      PartsPreserved(content.items);
    } else if content.Dict? {
      PartsPreserved([content]);
      FlatMapOne(ChatPart, content);
    }
  }

  lemma ToolOutputPreserved(content: Value)
    requires ToolOutput(content).Ok?
    ensures ResponsesContent(ToolOutput(content).value) == ToolContent(content)
  {
    if content.List? {
      PartsPreserved(content.items);
    }
  }

  // ----- messages -----

  /** A refusal next to content that already holds a refusal part, or is neither text, list nor object, is dropped. */
  predicate DropsRefusal(m: Message) {
    && m.role == Assistant && m.refusal != Null && !Blank(m.content) && !IsStr(m.content)
    && (m.content.List? ==> exists p :: p in m.content.items && IsRefusalPart(p))
    && (m.content.Dict? ==> IsRefusalPart(m.content))
  }

  lemma RefusalRead(refusal: Value)
    ensures ChatPart(RefusalAsPart(refusal)) == [Text(refusal)]
  {
  }

  /** Content given as parts, with the refusal appended as one more part. */
  lemma PartsThenRefusal(parts: seq<Value>, refusal: Value)
    requires MessageContent(List(parts + [RefusalAsPart(refusal)])).Ok?
    ensures ResponsesContent(MessageContent(List(parts + [RefusalAsPart(refusal)])).value) ==
            FlatMap(ChatPart, parts) + [Text(refusal)]
  {
    var extra := RefusalAsPart(refusal);
    ContentPreserved(List(parts + [extra]));
    RefusalRead(refusal);
    FlatMapOne(ChatPart, extra);
    FlatMapAppend(ChatPart, parts, [extra]);
  }

  lemma OnePart(part: Value)
    requires part.Dict?
    ensures FlatMap(ChatPart, [part]) == ChatContent(part)
  {
    FlatMapOne(ChatPart, part);
  }

  lemma TextAsPart(text: Value)
    ensures FlatMap(ChatPart, [Dict(map["type" := Str("text"), "text" := text])]) == [Text(text)]
  {
    FlatMapOne(ChatPart, Dict(map["type" := Str("text"), "text" := text]));
  }

  lemma TextThenRefusal(m: Message)
    requires ContentWithRefusal(m).Ok? && m.role == Assistant && m.refusal != Null
    requires IsStr(m.content) && !Blank(m.content)
    ensures ResponsesContent(ContentWithRefusal(m).value) == ChatContent(m.content) + [Text(m.refusal)]
  {
    var text := Dict(map["type" := Str("text"), "text" := m.content]);
    assert [text] + [RefusalAsPart(m.refusal)] == [text, RefusalAsPart(m.refusal)];
    TextAsPart(m.content);
    hide FlatMap, ChatPart, ResponsesContent, MessageContent, RefusalAsPart;
    PartsThenRefusal([text], m.refusal);
  }

  lemma RefusalPreserved(m: Message)
    requires ContentWithRefusal(m).Ok? && m.role == Assistant && m.refusal != Null
    ensures ResponsesContent(ContentWithRefusal(m).value) ==
            ChatContent(m.content) + if DropsRefusal(m) then [] else [Text(m.refusal)]
  {
    var content, extra := m.content, RefusalAsPart(m.refusal);
    if Blank(content) {
      assert [] + [extra] == [extra];
      PartsThenRefusal([], m.refusal);
    } else if DropsRefusal(m) {
      if content.Dict? {
        OnePart(content);
        ContentPreserved(List([content]));
      } else {
        ContentPreserved(content);
      }
    } else if content.List? {
      PartsThenRefusal(content.items, m.refusal);
    } else if content.Dict? {
      assert [content] + [extra] == [content, extra];
      OnePart(content);
      PartsThenRefusal([content], m.refusal);
    } else {
      TextThenRefusal(m);
    }
  }

  lemma CallRead(c: ChatCall)
    ensures FlatMap(ItemAtoms, CallItem(c)) == CallAtom(c)
  {
    FlatMapOne(ItemAtoms, CallItem(c)[0]);
  }

  lemma {:induction false} CallsPreserved(calls: seq<ChatCall>)
    ensures FlatMap(ItemAtoms, FlatMap(CallItem, calls)) == FlatMap(CallAtom, calls)
  {
    if calls != [] {
      var before, c := calls[..|calls| - 1], calls[|calls| - 1];
      CallsPreserved(before);
      FlatMapAppend(ItemAtoms, FlatMap(CallItem, before), CallItem(c));
      CallRead(c);
    }
  }

  /** The atoms that reach the Responses side. */
  function KeptAtoms(m: Message): seq<Atom> {
    BodyAtoms(m)
    + (if m.role == Assistant && !DropsRefusal(m) then RefusalAtoms(m) else [])
    + (if m.role == Assistant then FlatMap(CallAtom, m.toolCalls) else [])
  }

  lemma RoleItemRead(role: Role, content: Value)
    ensures FlatMap(ItemAtoms, [RoleItem(role, content)]) == Said(Str(Sender(role)), ResponsesContent(content))
  {
    FlatMapOne(ItemAtoms, RoleItem(role, content));
  }

  lemma ContentWithRefusalRead(m: Message)
    requires m.role != Tool && ContentWithRefusal(m).Ok?
    ensures Said(Str(Sender(m.role)), ResponsesContent(ContentWithRefusal(m).value)) ==
            BodyAtoms(m) + if m.role == Assistant && !DropsRefusal(m) then RefusalAtoms(m) else []
  {
    if m.role == Assistant && m.refusal != Null {
      RefusalPreserved(m);
    } else {
      ContentPreserved(m.content);
    }
  }

  lemma TranslateKeeps(m: Message)
    requires Translate(m).Ok? && m.responseItems == []
    ensures FlatMap(ItemAtoms, Translate(m).value) == KeptAtoms(m)
  {
    if m.role == Tool {
      ToolOutputPreserved(m.content);
      FlatMapOne(ItemAtoms, OutputItem(m.toolCallId, ToolOutput(m.content).value));
    } else {
      var content := ContentWithRefusal(m).value;
      ContentWithRefusalRead(m);
      RoleItemRead(m.role, content);
      if m.role == Assistant && m.toolCalls != [] {
        CallsPreserved(m.toolCalls);
        var head := if Blank(content) then [] else [RoleItem(Assistant, content)];
        FlatMapAppend(ItemAtoms, head, FlatMap(CallItem, m.toolCalls));
        assert FlatMap(ItemAtoms, head) == Said(Str(Sender(m.role)), ResponsesContent(content));
      }
    }
  }

  /** Every field sits on the role that uses it, and the refusal is not dropped. */
  predicate Faithful(m: Message) {
    && (m.toolCallId.Some? ==> m.role == Tool)
    && (m.toolCalls != [] ==> m.role == Assistant)
    && (m.refusal != Null ==> m.role == Assistant && !DropsRefusal(m))
  }

  lemma {:induction false} CallAtomCount(calls: seq<ChatCall>)
    ensures |FlatMap(CallAtom, calls)| == |calls|
  {
    if calls != [] {
      CallAtomCount(calls[..|calls| - 1]);
    }
  }

  lemma KeptWhenFaithful(m: Message)
    ensures KeptAtoms(m) == MessageAtoms(m) <==> Faithful(m)
    ensures |KeptAtoms(m)| < |MessageAtoms(m)| || KeptAtoms(m) == MessageAtoms(m)
  {
    CallAtomCount(m.toolCalls);
    if Faithful(m) {
      assert KeptAtoms(m) == MessageAtoms(m);
    } else {
      assert |KeptAtoms(m)| < |MessageAtoms(m)|;
    }
  }

  /**
   Whenever a transcript without replay state translates, the input items say exactly what the messages say,
   in order, iff every message is faithful.
   */
  lemma {:induction false} TranslationPreservesMeaning(ms: seq<Message>)
    requires TranslateAll(ms).Ok? && forall m | m in ms :: m.responseItems == []
    ensures var said, meant := FlatMap(ItemAtoms, TranslateAll(ms).value), FlatMap(MessageAtoms, ms);
            && (said == meant <==> forall m | m in ms :: Faithful(m))
            && (|said| < |meant| || said == meant)
  {
    if ms != [] {
      var before, m := ms[..|ms| - 1], ms[|ms| - 1];
      assert ms == before + [m];
      TranslationPreservesMeaning(before);
      FlatMapAppend(ItemAtoms, TranslateAll(before).value, Translate(m).value);
      TranslateKeeps(m);
      KeptWhenFaithful(m);
    }
  }

  /** An assistant message whose content already holds one refusal part, and that has another refusal beside it. */
  function TwoRefusals(inContent: string, beside: string): Message {
    Message.Message(Assistant, List([RefusalAsPart(Str(inContent))]), None, None, [], Str(beside), [], false)
  }

  /** The refusal beside the content is dropped without an error. */
  lemma {:induction false} SecondRefusalDropped(inContent: string, beside: string)
    ensures var r := TranslateAll([TwoRefusals(inContent, beside)]);
            r.Ok? && FlatMap(ItemAtoms, r.value) != FlatMap(MessageAtoms, [TwoRefusals(inContent, beside)])
  {
    var m, part := TwoRefusals(inContent, beside), RefusalAsPart(Str(inContent));
    assert part in m.content.items && IsRefusalPart(part);
    RefusalTranslates(inContent);
    assert !Faithful(m);
    TranslateOne(m);
    hide FlatMap, Translate, Faithful;
    TranslationPreservesMeaning([m]);
    assert m in [m];
  }

  lemma RefusalTranslates(refusal: string)
    ensures MessageContent(List([RefusalAsPart(Str(refusal))])).Ok?
  {
    var part := RefusalAsPart(Str(refusal));
    assert ContentPart(part).Ok?;
    assert [part][..0] == [];
    hide ContentPart;
    assert ContentParts([part]) == Ok([] + [ContentPart(part).value]);
  }

  // ----- failure instead of silent loss -----

  /** The fields of a part that its pieces are read from. */
  function ReadFields(part: Value): set<string> {
    var t := Get(part, "type");
    if t == Str("text") then {"type", "text", "prompt_cache_breakpoint"}
    else if t == Str("image_url") then {"type", "image_url", "prompt_cache_breakpoint"}
    else if t == Str("file") then {"type", "file", "prompt_cache_breakpoint"}
    else {"type", "refusal"}
  }

  /** A part that translates either is a Responses part already, kept whole, or has no field that is not read. */
  lemma NothingUnreadTranslates(part: Value)
    requires ContentPart(part).Ok?
    ensures if IsNative(part) then ContentPart(part).value == part
            else part.Dict? && OnlyKnown(part.fields, ReadFields(part))
    ensures Get(part, "type") == Str("image_url") && Get(part, "image_url").Dict? ==>
              OnlyKnown(Get(part, "image_url").fields, {"url", "detail"})
    ensures Get(part, "type") == Str("file") ==>
              Get(part, "file").Dict? && OnlyKnown(Get(part, "file").fields, {"file_data", "file_id", "filename"})
  {
  }

  // ----- who speaks -----

  /** What role an input item may have that comes of a message; a call or its output has none. */
  predicate SpokenBy(item: Value, m: Message) {
    || (m.role == Developer && Get(item, "role") == Str("developer"))
    || (m.role == System && Get(item, "role") == Str("system"))
    || (m.role == User && Get(item, "role") == Str("user"))
    || (m.role == Assistant && (Get(item, "role") == Str("assistant") || Get(item, "type") == Str("function_call")))
    || (m.role == Tool && Get(item, "type") == Str("function_call_output"))
    || (m.role == Function && Get(item, "role") == Str("function"))
  }

  /** Nobody is made to say what another said: every item of a message bears the message's own role. */
  lemma RolesKept(m: Message, item: Value)
    requires Translate(m).Ok? && item in Translate(m).value
    requires m.role != Assistant || m.responseItems == []
    ensures SpokenBy(item, m)
  {
    FlatMapMember(CallItem, m.toolCalls, item);
  }

  /** Nothing to say but calls. */
  predicate Silent(m: Message) {
    m.content in {Null, Str(""), List([])} && m.refusal == Null
  }

  /** One item for each call of an assistant, after one for what it says if anything; else one for the message. */
  lemma ItemsOfMessage(m: Message)
    requires Translate(m).Ok? && (m.role == Assistant ==> m.responseItems == [])
    ensures |Translate(m).value| ==
            if m.role != Assistant || m.toolCalls == [] then 1 else |m.toolCalls| + if Silent(m) then 0 else 1
  {
    CallItemCount(m.toolCalls);
    if m.role == Assistant && m.toolCalls != [] { SilentContent(m); }
    hide FlatMap, ContentWithRefusal, ToolOutput, Blank, Silent;
  }

  lemma {:induction false} CallItemCount(calls: seq<ChatCall>)
    ensures |FlatMap(CallItem, calls)| == |calls|
  {
    if calls != [] {
      CallItemCount(calls[..|calls| - 1]);
    }
  }

  lemma SilentContent(m: Message)
    requires m.role == Assistant && ContentWithRefusal(m).Ok?
    ensures Blank(ContentWithRefusal(m).value) <==> Silent(m)
  {
    if m.content.List? && MessageContent(m.content).Ok? { PartsLength(m.content.items); }
    if m.content.Dict? && MessageContent(m.content).Ok? { PartsLength([m.content]); }
    if m.refusal != Null { RefusedContent(m); }
  }

  lemma RefusedContent(m: Message)
    requires m.role == Assistant && m.refusal != Null && ContentWithRefusal(m).Ok?
    ensures !Blank(ContentWithRefusal(m).value)
  {
    forall parts: seq<Value> | parts != [] && MessageContent(List(parts)).Ok?
      ensures MessageContent(List(parts)).value.List? && MessageContent(List(parts)).value.items != []
    {
      PartsLength(parts);
    }
    hide ContentParts;
  }
}
