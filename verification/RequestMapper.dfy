/** app/mappers/request_mapper.py: a chat transcript in, Responses input items out. */
module RequestMapper {
  import opened Sequences
  import opened Wrappers
  import opened Values

  datatype Role = Developer | System | User | Assistant | Tool | Function

  function RoleName(r: Role): Value {
    match r
    case Developer => Str("developer")
    case System => Str("system")
    case User => Str("user")
    case Assistant => Str("assistant")
    case Tool => Str("tool")
    case Function => Str("function")
  }

  /** An assistant tool call; `arguments` is None when the key is absent. */
  datatype ChatCall = ChatCall(id: Option<string>, name: Option<string>, arguments: Option<Value>, unsupported: bool)

  /** `responseItems` is the replay state in x_openai; `unsupported` is the validator's view of all other fields. */
  datatype Message = Message(
    role: Role,
    content: Value,
    name: Option<string>,
    toolCallId: Option<string>,
    toolCalls: seq<ChatCall>,
    refusal: Value,
    responseItems: seq<Value>,
    unsupported: bool)

  // ----- content parts -----

  /** Every non-null field is one of `allowed`. */
  predicate OnlyKnown(source: map<string, Value>, allowed: set<string>) {
    forall k | k in source :: source[k] != Null ==> k in allowed
  }

  /** `_copy_prompt_cache_breakpoint` */
  function WithBreakpoint(part: Value, target: map<string, Value>): Result<Value> {
    var b := Get(part, "prompt_cache_breakpoint");
    if b == Null then Ok(Dict(target))
    else if !b.Dict? then Err("prompt_cache_breakpoint must be an object")
    else if !OnlyKnown(b.fields, {"mode"}) then Err("prompt_cache_breakpoint contains unsupported fields")
    else if Get(b, "mode") != Str("explicit") then Err("prompt_cache_breakpoint requires mode='explicit'")
    else Ok(Dict(target["prompt_cache_breakpoint" := b]))
  }

  function TextPart(part: Value): Result<Value>
    requires part.Dict?
  {
    if !OnlyKnown(part.fields, {"type", "text", "prompt_cache_breakpoint"}) then Err("text part: unsupported fields")
    else if !IsStr(Get(part, "text")) then Err("text part requires string field 'text'")
    else WithBreakpoint(part, map["type" := Str("input_text"), "text" := Get(part, "text")])
  }

  /** URL and detail of an image_url field, in both accepted shapes. */
  function ImageOf(image: Value): Result<(Value, Value)> {
    if IsStr(image) then Ok((image, Null))
    else if !image.Dict? then Err("image_url content must contain an image URL object")
    else if !OnlyKnown(image.fields, {"url", "detail"}) then Err("image_url object: unsupported fields")
    else if !IsStr(Get(image, "url")) then Err("image_url object requires string field 'url'")
    else Ok((Get(image, "url"), Get(image, "detail")))
  }

  function ImagePart(part: Value): Result<Value>
    requires part.Dict?
  {
    if !OnlyKnown(part.fields, {"type", "image_url", "prompt_cache_breakpoint"}) then
      Err("image_url part: unsupported fields")
    else
      match ImageOf(Get(part, "image_url"))
      case Err(e) => Err(e)
      case Ok((url, detail)) =>
        if !Truthy(url) then Err("image_url content must contain image_url.url")
        else
          var target := map["type" := Str("input_image"), "image_url" := url];
          WithBreakpoint(part, if detail == Null then target else target["detail" := detail])
  }

  function WithField(target: map<string, Value>, source: Value, key: string): map<string, Value> {
    if Get(source, key) == Null then target else target[key := Get(source, key)]
  }

  function FilePart(part: Value): Result<Value>
    requires part.Dict?
  {
    var spec := Get(part, "file");
    if !OnlyKnown(part.fields, {"type", "file", "prompt_cache_breakpoint"}) then Err("file part: unsupported fields")
    else if !spec.Dict? then Err("file content must contain a file object")
    else if !OnlyKnown(spec.fields, {"file_data", "file_id", "filename"}) then Err("file object: unsupported fields")
    else
      var target := map["type" := Str("input_file")];
      var withId := WithField(WithField(target, spec, "file_data"), spec, "file_id");
      WithBreakpoint(part, WithField(withId, spec, "filename"))
  }

  function RefusalPart(part: Value): Result<Value>
    requires part.Dict?
  {
    if !OnlyKnown(part.fields, {"type", "refusal"}) then Err("refusal part: unsupported fields")
    else if !IsStr(Get(part, "refusal")) then Err("refusal part requires string field 'refusal'")
    else Ok(Dict(map["type" := Str("input_text"), "text" := Get(part, "refusal")]))
  }

  predicate IsNative(part: Value) {
    Get(part, "type") == Str("input_text") || Get(part, "type") == Str("input_image") ||
    Get(part, "type") == Str("input_file")
  }

  /** `_to_responses_content_part` */
  function ContentPart(part: Value): Result<Value> {
    var t := Get(part, "type");
    if !part.Dict? then Err("content parts must be objects")
    else if t == Str("text") then TextPart(part)
    else if t == Str("image_url") then ImagePart(part)
    else if t == Str("file") then FilePart(part)
    else if IsNative(part) then Ok(part)
    else if t == Str("refusal") then RefusalPart(part)
    else Err("unsupported content part")      // input_audio included
  }

  /** [_to_responses_content_part(part) for part in parts], failing as soon as one part does */
  function ContentParts(parts: seq<Value>): Result<seq<Value>> {
    if parts == [] then Ok([])
    else
      match ContentParts(parts[..|parts| - 1])
      case Err(e) => Err(e)
      case Ok(done) =>
        match ContentPart(parts[|parts| - 1])
        case Err(e) => Err(e)
        case Ok(p) => Ok(done + [p])
  }

  function AsList(parts: Result<seq<Value>>): Result<Value> {
    match parts
    case Ok(ps) => Ok(List(ps))
    case Err(e) => Err(e)
  }

  /** `_normalize_message_content` */
  function MessageContent(content: Value): Result<Value> {
    if content == Null then Ok(Str(""))
    else if IsStr(content) then Ok(content)
    else if content.List? then AsList(ContentParts(content.items))
    else if content.Dict? then AsList(ContentParts([content]))
    else Ok(Printed(content))
  }

  predicate IsRefusalPart(part: Value) {
    Get(part, "type") == Str("refusal")
  }

  function RefusalAsPart(refusal: Value): Value {
    Dict(map["type" := Str("refusal"), "refusal" := refusal])
  }

  predicate Blank(content: Value) {
    content == Null || content == Str("") || content == List([])
  }

  /** `_normalize_message_content_with_refusal` */
  function ContentWithRefusal(m: Message): Result<Value> {
    var content, extra := m.content, RefusalAsPart(m.refusal);
    if m.role != Assistant || m.refusal == Null then MessageContent(content)
    else if !IsStr(m.refusal) then Err("assistant refusal must be a string")
    else if Blank(content) then MessageContent(List([extra]))
    else if content.List? then
      var holdsOne := exists p :: p in content.items && IsRefusalPart(p);
      MessageContent(if holdsOne then content else List(content.items + [extra]))
    else if content.Dict? then MessageContent(List(if IsRefusalPart(content) then [content] else [content, extra]))
    else if IsStr(content) then
      MessageContent(List([Dict(map["type" := Str("text"), "text" := content]), extra]))
    else MessageContent(content)
  }

  /** `_normalize_tool_output` */
  function ToolOutput(content: Value): Result<Value> {
    if content == Null then Ok(Str(""))
    else if IsStr(content) then Ok(content)
    else if content.List? then AsList(ContentParts(content.items))
    else Ok(JsonText(content))
  }

  // ----- messages -----

  function StrOrNull(s: Option<string>): Value {
    if s.Some? then Str(s.value) else Null
  }

  function CallItem(c: ChatCall): seq<Value> {
    [Dict(map["type" := Str("function_call"), "call_id" := StrOrNull(c.id), "name" := StrOrNull(c.name),
              "arguments" := if c.arguments.Some? then c.arguments.value else Str("{}")])]
  }

  function RoleItem(role: Role, content: Value): Value {
    Dict(map["role" := RoleName(role), "content" := content])
  }

  function OutputItem(callId: Option<string>, output: Value): Value {
    Dict(map["type" := Str("function_call_output"), "call_id" := StrOrNull(callId), "output" := output])
  }

  /** The input items that one message becomes. */
  function Translate(m: Message): Result<seq<Value>> {
    if m.role == Assistant && m.responseItems != [] then Ok(m.responseItems)
    else if m.role == Assistant && m.toolCalls != [] then
      match ContentWithRefusal(m)
      case Err(e) => Err(e)
      case Ok(content) =>
        Ok((if Blank(content) then [] else [RoleItem(Assistant, content)]) + FlatMap(CallItem, m.toolCalls))
    else if m.role == Tool then
      match ToolOutput(m.content)
      case Err(e) => Err(e)
      case Ok(output) => Ok([OutputItem(m.toolCallId, output)])
    else
      match ContentWithRefusal(m)
      case Err(e) => Err(e)
      case Ok(content) => Ok([RoleItem(m.role, content)])
  }

  function TranslateAll(ms: seq<Message>): Result<seq<Value>> {
    if ms == [] then Ok([])
    else
      match TranslateAll(ms[..|ms| - 1])
      case Err(e) => Err(e)
      case Ok(done) =>
        match Translate(ms[|ms| - 1])
        case Err(e) => Err(e)
        case Ok(items) => Ok(done + items)
  }

  lemma {:induction false} TranslateAppend(a: seq<Message>, b: seq<Message>)
    ensures TranslateAll(a + b) ==
            match TranslateAll(a) {
              case Err(e) => Err(e)
              case Ok(x) => match TranslateAll(b) { case Err(e) => Err(e) case Ok(y) => Ok(x + y) }
            }
  {
    if b == [] {
      assert a + b == a;
      if TranslateAll(a).Ok? { assert TranslateAll(a).value + [] == TranslateAll(a).value; }
    } else {
      var n := |b| - 1;
      assert (a + b)[..|a + b| - 1] == a + b[..n];
      TranslateAppend(a, b[..n]);
      if TranslateAll(a).Ok? && TranslateAll(b).Ok? {
        assert TranslateAll(a).value + (TranslateAll(b[..n]).value + Translate(b[n]).value) ==
               TranslateAll(a).value + TranslateAll(b[..n]).value + Translate(b[n]).value;
      }
    }
  }

  lemma TranslateOne(m: Message)
    ensures TranslateAll([m]) == Translate(m)
  {
    assert [m][..0] == [];
    assert TranslateAll([]) == Ok([]);
    if Translate(m).Ok? { assert [] + Translate(m).value == Translate(m).value; }
  }

  /** Once a prefix fails, the whole does, with the same error. */
  lemma {:induction false} FailureStays(ms: seq<Message>, i: nat)
    requires i <= |ms| && TranslateAll(ms[..i]).Err?
    ensures TranslateAll(ms) == TranslateAll(ms[..i])
    decreases |ms|
  {
    if i < |ms| {
      assert ms[..|ms| - 1][..i] == ms[..i];
      FailureStays(ms[..|ms| - 1], i);
    } else {
      assert ms[..i] == ms;
    }
  }

  method ToResponsesInput(ms: seq<Message>) returns (r: Result<seq<Value>>)
    ensures r == TranslateAll(ms)
  {
    var out: seq<Value> := [];
    for i := 0 to |ms|
      invariant TranslateAll(ms[..i]) == Ok(out)
    {
      var m := ms[i];
      assert ms[..i + 1][..i] == ms[..i];
      if TranslateAll(ms[..i + 1]).Err? {
        FailureStays(ms, i + 1);
      }
      if m.role == Assistant && m.responseItems != [] {
        out := out + m.responseItems;
        continue;
      }
      if m.role == Assistant && m.toolCalls != [] {
        match ContentWithRefusal(m)
        case Err(e) => return Err(e);
        case Ok(content) =>
          var items := [];
          if !Blank(content) {
            items := [RoleItem(Assistant, content)];
          }
          for j := 0 to |m.toolCalls|
            invariant items == (if Blank(content) then [] else [RoleItem(Assistant, content)])
                               + FlatMap(CallItem, m.toolCalls[..j])
          {
            FlatMapStep(CallItem, m.toolCalls, j);
            items := items + CallItem(m.toolCalls[j]);
          }
          assert m.toolCalls[..|m.toolCalls|] == m.toolCalls;
          out := out + items;
          continue;
      }
      if m.role == Tool {
        match ToolOutput(m.content)
        case Err(e) => return Err(e);
        case Ok(output) =>
          out := out + [OutputItem(m.toolCallId, output)];
          continue;
      }
      match ContentWithRefusal(m)
      case Err(e) => return Err(e);
      case Ok(content) => out := out + [RoleItem(m.role, content)];
    }
    assert ms[..|ms|] == ms;
    r := Ok(out);
  }
}
