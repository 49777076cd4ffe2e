/** Which parts, messages and transcripts translate, told from their fields alone. */
module Translatable {
  import opened Sequences
  import opened Wrappers
  import opened Values
  import opened RequestMapper

  /** Every field but the named ones is null. */
  predicate NothingBut(part: Value, names: set<string>) {
    part.Dict? && forall k | k in part.fields :: k in names || part.fields[k] == Null
  }

  predicate GoodBreakpoint(part: Value) {
    var b := Get(part, "prompt_cache_breakpoint");
    b == Null || (NothingBut(b, {"mode"}) && Get(b, "mode") == Str("explicit"))
  }

  predicate GoodText(part: Value) {
    && Get(part, "type") == Str("text") && IsStr(Get(part, "text"))
    && NothingBut(part, {"type", "text", "prompt_cache_breakpoint"}) && GoodBreakpoint(part)
  }

  /** A non-empty URL, or an object that holds one and perhaps a detail. */
  predicate GoodUrl(image: Value) {
    var url := if image.Dict? then Get(image, "url") else image;
    (image.Dict? ==> NothingBut(image, {"url", "detail"})) && IsStr(url) && url != Str("")
  }

  predicate GoodImage(part: Value) {
    && Get(part, "type") == Str("image_url") && GoodUrl(Get(part, "image_url"))
    && NothingBut(part, {"type", "image_url", "prompt_cache_breakpoint"}) && GoodBreakpoint(part)
  }

  predicate GoodFile(part: Value) {
    && Get(part, "type") == Str("file")
    && NothingBut(Get(part, "file"), {"file_data", "file_id", "filename"})
    && NothingBut(part, {"type", "file", "prompt_cache_breakpoint"}) && GoodBreakpoint(part)
  }

  predicate GoodRefusal(part: Value) {
    Get(part, "type") == Str("refusal") && IsStr(Get(part, "refusal")) && NothingBut(part, {"type", "refusal"})
  }

  predicate GoodPart(part: Value) {
    || GoodText(part) || GoodImage(part) || GoodFile(part) || GoodRefusal(part)
    || Get(part, "type") in {Str("input_text"), Str("input_image"), Str("input_file")}
  }

  /** A part translates iff it is a well-formed text, image, file or refusal, or already of the Responses kind. */
  lemma PartTranslatesIff(part: Value)
    ensures ContentPart(part).Ok? <==> GoodPart(part)
  {
    var t := Get(part, "type");
    if t == Str("text") {
      TextTranslatesIff(part);
    } else if t == Str("image_url") {
      ImageTranslatesIff(part);
    } else if t == Str("file") {
      FileTranslatesIff(part);
    }
  }

  lemma BreakpointTranslatesIff(part: Value, target: map<string, Value>)
    ensures WithBreakpoint(part, target).Ok? <==> GoodBreakpoint(part)
  {
  }

  lemma TextTranslatesIff(part: Value)
    requires Get(part, "type") == Str("text")
    ensures ContentPart(part).Ok? <==> GoodText(part)
  {
    BreakpointTranslatesIff(part, map["type" := Str("input_text"), "text" := Get(part, "text")]);
    hide GoodBreakpoint, WithBreakpoint;
  }

  lemma UrlReadIff(image: Value)
    ensures ImageOf(image).Ok? && Truthy(ImageOf(image).value.0) <==> GoodUrl(image)
  {
  }

  lemma ImageTranslatesIff(part: Value)
    requires Get(part, "type") == Str("image_url")
    ensures ContentPart(part).Ok? <==> GoodImage(part)
  {
    hide GoodBreakpoint, WithBreakpoint, ImageOf, GoodUrl, Truthy;
    forall target ensures WithBreakpoint(part, target).Ok? <==> GoodBreakpoint(part) {
      BreakpointTranslatesIff(part, target);
    }
    UrlReadIff(Get(part, "image_url"));
  }

  lemma FileTranslatesIff(part: Value)
    requires Get(part, "type") == Str("file")
    ensures ContentPart(part).Ok? <==> GoodFile(part)
  {
    forall target ensures WithBreakpoint(part, target).Ok? <==> GoodBreakpoint(part) {
      BreakpointTranslatesIff(part, target);
    }
    hide GoodBreakpoint, WithBreakpoint;
  }

  lemma {:induction false} PartsTranslateIff(parts: seq<Value>)
    ensures ContentParts(parts).Ok? <==> forall part | part in parts :: GoodPart(part)
  {
    if parts != [] {
      var before, part := parts[..|parts| - 1], parts[|parts| - 1];
      assert parts == before + [part];
      PartsTranslateIff(before);
      PartTranslatesIff(part);
      hide GoodPart, ContentPart;
    }
  }

  predicate GoodContent(content: Value) {
    && (content.List? ==> forall part | part in content.items :: GoodPart(part))
    && (content.Dict? ==> GoodPart(content))
  }

  lemma ContentTranslatesIff(content: Value)
    ensures MessageContent(content).Ok? <==> GoodContent(content)
  {
    hide GoodPart, ContentPart;
    if content.List? {
      PartsTranslateIff(content.items);
    } else if content.Dict? {
      PartsTranslateIff([content]);
      assert content in [content];
    }
  }

  /** Replay items translate as they are, tool output unless a part of a list is bad, all else if its parts do. */
  predicate GoodMessage(m: Message) {
    if m.role == Assistant && m.responseItems != [] then true
    else if m.role == Tool then m.content.List? ==> GoodContent(m.content)
    else GoodContent(m.content) && (m.role == Assistant && m.refusal != Null ==> IsStr(m.refusal))
  }

  lemma TextAndRefusalGood(text: Value, refusal: Value)
    requires IsStr(refusal)
    ensures GoodPart(RefusalAsPart(refusal))
    ensures IsStr(text) ==> GoodPart(Dict(map["type" := Str("text"), "text" := text]))
  {
  }

  lemma RefusalContentIff(m: Message)
    requires m.role == Assistant && IsStr(m.refusal)
    ensures ContentWithRefusal(m).Ok? <==> GoodContent(m.content)
  {
    hide GoodPart, ContentPart, ContentParts, MessageContent, RefusalAsPart;
    var content, extra := m.content, RefusalAsPart(m.refusal);
    var text := Dict(map["type" := Str("text"), "text" := content]);
    TextAndRefusalGood(content, m.refusal);
    ContentTranslatesIff(content);
    ContentTranslatesIff(List([extra]));
    ContentTranslatesIff(List([text, extra]));
    ContentTranslatesIff(List([content]));
    ContentTranslatesIff(List([content, extra]));
    if content.List? { ContentTranslatesIff(List(content.items + [extra])); }
  }

  lemma MessageTranslatesIff(m: Message)
    ensures Translate(m).Ok? <==> GoodMessage(m)
  {
    ContentTranslatesIff(m.content);
    if m.role == Assistant && m.refusal != Null {
      if IsStr(m.refusal) { RefusalContentIff(m); }
      hide GoodContent;
    } else if m.role == Tool {
      if m.content.List? { PartsTranslateIff(m.content.items); }
    }
  }

  /** A transcript translates iff each message does. */
  lemma {:induction false} TranslatesIff(ms: seq<Message>)
    ensures TranslateAll(ms).Ok? <==> forall m | m in ms :: GoodMessage(m)
  {
    if ms != [] {
      var before, m := ms[..|ms| - 1], ms[|ms| - 1];
      assert ms == before + [m];
      TranslatesIff(before);
      MessageTranslatesIff(m);
      hide GoodMessage, Translate;
    }
  }
}
