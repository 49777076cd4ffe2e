/** Stateless replay: what the client sends back makes the payload of a conversation kept on the server. */
module Replay {
  import opened Sequences
  import opened Wrappers
  import opened Values
  import opened Serialization
  import opened Items
  import opened RequestMapper
  import opened Registry
  import opened ChatService
  import ResponseMapper

  // ----- conversations -----

  /** New messages, the upstream's output for them, and the assistant message the client keeps of it. */
  datatype Turn = Turn(news: seq<Message>, output: seq<Value>, reply: Message)

  /** The reply is kept unchanged: an assistant message carrying the serialised output. */
  predicate Kept(t: Turn) {
    t.output != [] && t.reply.role == Assistant && t.reply.responseItems == Serialize(t.output)
  }

  /** No tool call and no tool message names a bridged tool. */
  predicate Unbridged(m: Message) {
    && (forall c | c in CallsOf(m) :: !Bridged(c.name))
    && (m.role == Tool ==> !Bridged(m.name))
  }

  function TurnMessages(t: Turn): seq<Message> {
    t.news + [t.reply]
  }

  /** The messages the client sends when it continues the conversation `turns` with `news`. */
  function Transcript(turns: seq<Turn>, news: seq<Message>): seq<Message> {
    FlatMap(TurnMessages, turns) + news
  }

  /** The log a server would keep: translated new messages, and every output item as serialised once. */
  function Log(turns: seq<Turn>): Result<seq<Value>> {
    if turns == [] then Ok([])
    else
      var t := turns[|turns| - 1];
      match Log(turns[..|turns| - 1])
      case Err(e) => Err(e)
      case Ok(log) =>
        match TranslateAll(t.news)
        case Err(e) => Err(e)
        case Ok(items) => Ok(log + items + Serialize(t.output))
  }

  function Appended(log: Result<seq<Value>>, news: seq<Message>): Result<seq<Value>> {
    match log
    case Err(e) => Err(e)
    case Ok(items) => match TranslateAll(news) { case Err(e) => Err(e) case Ok(more) => Ok(items + more) }
  }

  lemma {:induction false} TranscriptTranslates(turns: seq<Turn>)
    requires forall t | t in turns :: Kept(t)
    ensures TranslateAll(FlatMap(TurnMessages, turns)) == Log(turns)
  {
    if turns != [] {
      var before, t := turns[..|turns| - 1], turns[|turns| - 1];
      assert turns == before + [t];
      TranscriptTranslates(before);
      TranslateAppend(FlatMap(TurnMessages, before), TurnMessages(t));
      FlatMapSnoc(TurnMessages, turns);
      assert t in turns;
      TurnTranslates(t);
      hide TranslateAll, Serialize, Kept, FlatMap;
      if Log(before).Ok? && TranslateAll(t.news).Ok? {
        var log, items := Log(before).value, TranslateAll(t.news).value;
        assert log + (items + Serialize(t.output)) == log + items + Serialize(t.output);
      }
    }
  }

  lemma TurnTranslates(t: Turn)
    requires Kept(t)
    ensures TranslateAll(TurnMessages(t)) ==
            match TranslateAll(t.news) { case Err(e) => Err(e) case Ok(items) => Ok(items + Serialize(t.output)) }
  {
    TranslateAppend(t.news, [t.reply]);
    TranslateOne(t.reply);
    assert |Serialize(t.output)| == |t.output|;
    assert Translate(t.reply) == Ok(Serialize(t.output));
    hide TranslateAll, Translate, Serialize;
  }

  // ----- where bridging leaves a transcript alone -----

  /**
   Bridging takes nothing from the message that reaches the payload: it keeps the calls of a new assistant message, does
   not drop a reply with replay items, whatever their calls, and does not replace a tool message.
   */
  predicate Spared(m: Message, bridged: map<string, Prior>) {
    if m.role != Assistant then !Replaced(m, bridged)
    else if m.responseItems != [] then !Swallowed(m, bridged)
    else forall c | c in m.toolCalls :: !(c.id.Some? && c.id.value in bridged)
  }

  ghost predicate AllSpared(ms: seq<Message>, loads: Loads) {
    forall m | m in ms :: Spared(m, BridgedCalls(ms, loads))
  }

  lemma {:induction false} KeepsThem(calls: seq<ChatCall>, bridged: map<string, Prior>)
    requires forall c | c in calls :: !(c.id.Some? && c.id.value in bridged)
    ensures FlatMap(Keeps(bridged), calls) == calls
  {
    if calls != [] {
      assert calls[|calls| - 1] in calls;
      KeepsThem(calls[..|calls| - 1], bridged);
    }
  }

  lemma {:induction false} KeepsNone(calls: seq<ChatCall>, bridged: map<string, Prior>)
    ensures FlatMap(Keeps(bridged), calls) == [] <==> forall c | c in calls :: c.id.Some? && c.id.value in bridged
  {
    if calls != [] {
      var before, c := calls[..|calls| - 1], calls[|calls| - 1];
      assert calls == before + [c];
      KeepsNone(before, bridged);
    }
  }

  lemma SparedTranslates(m: Message, bridged: map<string, Prior>, loads: Loads)
    requires Spared(m, bridged)
    ensures TranslateAll(Forward(m, bridged)) == Translate(m) && Ask(m, bridged, loads) == []
  {
    if m.role == Assistant && m.responseItems != [] {
      TranslateOne(Forward(m, bridged)[0]);
    } else if m.role == Assistant {
      KeepsThem(m.toolCalls, bridged);
      assert m.(toolCalls := m.toolCalls) == m;
      TranslateOne(m);
    } else {
      TranslateOne(m);
    }
  }

  lemma {:induction false} SparedTranscript(ms: seq<Message>, bridged: map<string, Prior>, loads: Loads)
    requires forall m | m in ms :: Spared(m, bridged)
    ensures TranslateAll(FlatMap(Forwards(bridged), ms)) == TranslateAll(ms)
    ensures FlatMap(AsksFor(bridged, loads), ms) == []
  {
    if ms != [] {
      var before, m := ms[..|ms| - 1], ms[|ms| - 1];
      assert ms == before + [m];
      FlatMapSnoc(Forwards(bridged), ms);
      FlatMapSnoc(AsksFor(bridged, loads), ms);
      hide FlatMap, Forward, Ask, Spared, TranslateAll, Translate;
      SparedTranscript(before, bridged, loads);
      SparedTranslates(m, bridged, loads);
      TranslateAppend(FlatMap(Forwards(bridged), before), Forward(m, bridged));
      TranslateAppend(before, [m]);
      TranslateOne(m);
    }
  }

  /** With fewer bridged calls, a spared message stays spared. */
  lemma SparedLess(m: Message, fewer: map<string, Prior>, bridged: map<string, Prior>)
    requires Spared(m, bridged) && forall id | id in fewer :: id in bridged
    ensures Spared(m, fewer)
  {
    KeepsNone(m.toolCalls, fewer);
    KeepsNone(m.toolCalls, bridged);
  }

  lemma BridgedGrow(ms: seq<Message>, more: seq<Message>, loads: Loads)
    ensures forall id | id in BridgedCalls(ms, loads) :: id in BridgedCalls(ms + more, loads)
  {
    FlatMapAppend(CallsOf, ms, more);
    forall id | id in BridgedCalls(ms, loads) ensures id in BridgedCalls(ms + more, loads) {
      CollectedKeys(FlatMap(CallsOf, ms), loads, id);
      CollectedKeys(FlatMap(CallsOf, ms + more), loads, id);
    }
  }

  lemma SparedEarlier(ms: seq<Message>, more: seq<Message>, loads: Loads)
    requires AllSpared(ms + more, loads)
    ensures AllSpared(ms, loads)
  {
    BridgedGrow(ms, more, loads);
    forall m | m in ms ensures Spared(m, BridgedCalls(ms, loads)) {
      assert m in ms + more;
      SparedLess(m, BridgedCalls(ms, loads), BridgedCalls(ms + more, loads));
    }
  }

  /** In particular where no tool call and no tool message names a bridged tool. */
  lemma UnbridgedSpared(ms: seq<Message>, loads: Loads)
    requires forall m | m in ms :: Unbridged(m)
    ensures AllSpared(ms, loads)
  {
    NothingBridged(ms, loads);
    forall m | m in ms ensures Spared(m, map[]) {
      KeepsNone(m.toolCalls, map[]);
    }
  }

  lemma {:induction false} NothingBridged(ms: seq<Message>, loads: Loads)
    requires forall m | m in ms :: Unbridged(m)
    ensures BridgedCalls(ms, loads) == map[]
  {
    var calls := FlatMap(CallsOf, ms);
    CallsUnbridged(ms);
    forall id ensures id !in Collected(calls, loads) {
      CollectedKeys(calls, loads, id);
    }
  }

  lemma {:induction false} CallsUnbridged(ms: seq<Message>)
    requires forall m | m in ms :: Unbridged(m)
    ensures forall c | c in FlatMap(CallsOf, ms) :: !Bridged(c.name)
  {
    if ms != [] {
      var before, m := ms[..|ms| - 1], ms[|ms| - 1];
      assert ms == before + [m];
      CallsUnbridged(before);
      assert FlatMap(CallsOf, ms) == FlatMap(CallsOf, before) + CallsOf(m);
      assert Unbridged(m);
      forall c | c in FlatMap(CallsOf, ms) ensures !Bridged(c.name) {
        if c !in CallsOf(m) { assert c in FlatMap(CallsOf, before); }
      }
    }
  }

  /** The input items of the payload for `ms`, once the request is known to be compatible. */
  function Payload(ms: seq<Message>, loads: Loads): Result<seq<Value>> {
    var bridged := BridgedCalls(ms, loads);
    match TranslateAll(FlatMap(Forwards(bridged), ms))
    case Err(e) => Err(e)
    case Ok(items) => Ok(items + FlatMap(AsksFor(bridged, loads), ms))
  }

  lemma PreparedPayload(req: Request, loads: Loads, svc: Service)
    requires Compatible(req)
    ensures match Prepare(req, loads, svc) {
              case Err(e) => Payload(req.messages, loads) == Err(e)
              case Ok(p) => var r := Payload(req.messages, loads); r.Ok? && p.input == req.inputItems + r.value
            }
  {
    var bridged := BridgedCalls(req.messages, loads);
    var items := TranslateAll(FlatMap(Forwards(bridged), req.messages));
    var asks := FlatMap(AsksFor(bridged, loads), req.messages);
    hide Prepare, FlatMap, TranslateAll, BridgedCalls, Compatible;
    PreparedInput(req, loads, svc);
    if items.Ok? {
      assert req.inputItems + items.value + asks == req.inputItems + (items.value + asks);
    }
  }

  /**
   For a conversation of any length, continued with any new messages: the payload of the stateless request is the log of
   the stateful conversation followed by the translated new messages (and fails exactly when one of them fails). Bridged
   tools are covered: their calls live on in the replay items, as long as no message is swallowed or replaced.
   */
  lemma {:induction false} LosslessReplay(turns: seq<Turn>, news: seq<Message>, loads: Loads)
    requires forall t | t in turns :: Kept(t)
    requires AllSpared(Transcript(turns, news), loads)
    ensures Payload(Transcript(turns, news), loads) == Appended(Log(turns), news)
  {
    var ms := Transcript(turns, news);
    SparedTranscript(ms, BridgedCalls(ms, loads), loads);
    TranscriptTranslates(turns);
    TranslateAppend(FlatMap(TurnMessages, turns), news);
    hide FlatMap, TranslateAll, BridgedCalls, Spared, Kept, Log;
    if TranslateAll(ms).Ok? { assert TranslateAll(ms).value + [] == TranslateAll(ms).value; }
  }

  /** Each turn's payload is the previous payload, that turn's serialised output, and the new messages. */
  lemma {:induction false} PayloadExtends(turns: seq<Turn>, t: Turn, news: seq<Message>, loads: Loads)
    requires forall u | u in turns + [t] :: Kept(u)
    requires AllSpared(Transcript(turns + [t], news), loads)
    requires Payload(Transcript(turns + [t], news), loads).Ok?
    ensures var previous := Payload(Transcript(turns, t.news), loads);
            var next := Payload(Transcript(turns + [t], news), loads);
            && previous.Ok? && TranslateAll(news).Ok?
            && next.value == previous.value + Serialize(t.output) + TranslateAll(news).value
  {
    hide AllSpared, Payload, Transcript, Log, TranslateAll, Kept, Serialize;
    TranscriptGrows(turns, t, news);
    assert Transcript(turns + [t], news) == Transcript(turns, t.news) + ([t.reply] + news);
    SparedEarlier(Transcript(turns, t.news), [t.reply] + news, loads);
    LosslessReplay(turns + [t], news, loads);
    LosslessReplay(turns, t.news, loads);
    LogGrows(turns, t);
  }

  lemma TranscriptGrows(turns: seq<Turn>, t: Turn, news: seq<Message>)
    ensures Transcript(turns + [t], news) == Transcript(turns, t.news) + [t.reply] + news
  {
    assert (turns + [t])[..|turns|] == turns;
    FlatMapSnoc(TurnMessages, turns + [t]);
    hide FlatMap;
  }

  lemma LogGrows(turns: seq<Turn>, t: Turn)
    ensures Log(turns + [t]) ==
            match Appended(Log(turns), t.news) { case Err(e) => Err(e) case Ok(log) => Ok(log + Serialize(t.output)) }
  {
    assert (turns + [t])[..|turns|] == turns;
    hide TranslateAll, Serialize;
  }

  // ----- where replay state is lost -----

  /**
   Replay items reach the payload whole when they sit on an assistant message that bridging does not swallow; on every
   other message they make no difference at all.
   */
  lemma ReplayStateSurvivesIff(m: Message, bridged: map<string, Prior>)
    requires m.responseItems != []
    ensures if m.role == Assistant && !Swallowed(m, bridged) then
              TranslateAll(Forward(m, bridged)) == Ok(m.responseItems)
            else forall items ::
              TranslateAll(Forward(m.(responseItems := items), bridged)) == TranslateAll(Forward(m, bridged))
  {
    if m.role == Assistant && !Swallowed(m, bridged) {
      TranslateOne(Forward(m, bridged)[0]);
    } else if m.role != Assistant {
      forall items
        ensures TranslateAll(Forward(m.(responseItems := items), bridged)) == TranslateAll(Forward(m, bridged))
      {
        TranslateOne(m);
        TranslateOne(m.(responseItems := items));
      }
    }
  }

  /** Yet such items, read or not, send the request to the Responses path. */
  lemma ItemsForceResponses(req: Request, m: Message)
    requires req.mode == Auto && m in req.messages && m.responseItems != []
    ensures SelectMode(req, true) == Ok(ResponsesMode)
  {
  }

  /** An assistant message that only calls a bridged tool, with replay items. */
  function OnlySearches(items: seq<Value>): Request {
    var m := RequestMapper.Message.Message(Assistant, Null, None, None, [SEARCH_CALL], Null, items, false);
    Request(Auto, [], [m], [], None, None, 1, false, false, false, false, false, None)
  }

  /** The bridged ids of the transcript itself swallow the message: its replay items vanish without an error. */
  lemma SearchSwallowsReplay(items: seq<Value>, loads: Loads, svc: Service)
    ensures var p := Prepare(OnlySearches(items), loads, svc); p.Ok? && p.value.input == []
  {
    var req := OnlySearches(items);
    var m, bridged := req.messages[0], BridgedCalls(req.messages, loads);
    FlatMapOne(CallsOf, m);
    CollectedSnoc([], SEARCH_CALL, loads);
    assert [] + [SEARCH_CALL] == [SEARCH_CALL];
    assert bridged == map["c" := PriorOf(SEARCH_CALL, loads)];
    FlatMapOne(Keeps(bridged), SEARCH_CALL);
    FlatMapOne(Forwards(bridged), m);
    FlatMapOne(AsksFor(bridged, loads), m);
    assert Compatible(req) && Forward(m, bridged) == [] && Ask(m, bridged, loads) == [];
    hide FlatMap, BridgedCalls, Prepare, Forward, Ask;
    PreparedInput(req, loads, svc);
  }

  // ----- tool calls without replay state -----

  function AsId(v: Value): Option<string> {
    if v.Str? then Some(v.s) else None
  }

  function ChatCallOf(c: ToolCall): seq<ChatCall> {
    [ChatCall(AsId(c.id), AsId(c.name), Some(c.arguments), false)]
  }

  /** The assistant message a Chat Completions client keeps of a normalised response: text and tool calls only. */
  function PlainReply(n: ResponseMapper.Normalized): Message {
    var content := if n.toolCalls != [] && n.assistantText == "" then Null else Str(n.assistantText);
    RequestMapper.Message.Message(Assistant, content, None, None, FlatMap(ChatCallOf, n.toolCalls), Null, [], false)
  }

  function Triple(item: Value): seq<ToolCall> {
    if Get(item, "type") == Str("function_call") then
      [ToolCall(Get(item, "call_id"), Get(item, "name"), Get(item, "arguments"))]
    else []
  }

  predicate PlainIds(c: ToolCall) {
    (c.id.Str? || c.id == Null) && (c.name.Str? || c.name == Null)
  }

  lemma {:induction false} CallsReadBack(calls: seq<ToolCall>)
    requires forall c | c in calls :: PlainIds(c)
    ensures FlatMap(Triple, FlatMap(CallItem, FlatMap(ChatCallOf, calls))) == calls
  {
    if calls != [] {
      var before, c := calls[..|calls| - 1], calls[|calls| - 1];
      assert calls == before + [c];
      CallsReadBack(before);
      FlatMapAppend(CallItem, FlatMap(ChatCallOf, before), ChatCallOf(c));
      FlatMapAppend(Triple, FlatMap(CallItem, FlatMap(ChatCallOf, before)), FlatMap(CallItem, ChatCallOf(c)));
      CallReadBack(c);
    }
  }

  lemma CallReadBack(c: ToolCall)
    requires PlainIds(c)
    ensures FlatMap(Triple, FlatMap(CallItem, ChatCallOf(c))) == [c]
  {
    FlatMapOne(CallItem, ChatCallOf(c)[0]);
    FlatMapOne(Triple, CallItem(ChatCallOf(c)[0])[0]);
  }

  /** Sent back as a plain assistant message, the tool calls of any output become the same calls in the same order. */
  lemma ToolCallRoundTrip(resp: Value, bridges: seq<BridgeExecution>)
    requires forall c | c in FlatMap(ItemToolCalls, AttrList(resp, "output")) :: PlainIds(c)
    ensures var reply := Translate(PlainReply(ResponseMapper.NormalizedOf(resp, bridges)));
            reply.Ok? && FlatMap(Triple, reply.value) == FlatMap(ItemToolCalls, AttrList(resp, "output"))
  {
    PlainReplyReadBack(ResponseMapper.NormalizedOf(resp, bridges));
  }

  lemma PlainReplyReadBack(n: ResponseMapper.Normalized)
    requires forall c | c in n.toolCalls :: PlainIds(c)
    ensures var reply := Translate(PlainReply(n));
            reply.Ok? && FlatMap(Triple, reply.value) == n.toolCalls
  {
    var said := PlainReplyTranslated(n);
    CallsReadBack(n.toolCalls);
    hide FlatMap, Translate, PlainIds;
    FlatMapAppend(Triple, said, FlatMap(CallItem, FlatMap(ChatCallOf, n.toolCalls)));
  }

  lemma PlainReplyTranslated(n: ResponseMapper.Normalized) returns (said: seq<Value>)
    ensures Translate(PlainReply(n)) == Ok(said + FlatMap(CallItem, FlatMap(ChatCallOf, n.toolCalls)))
    ensures FlatMap(Triple, said) == []
  {
    var m := PlainReply(n);
    var content := MessageContent(m.content).value;
    said := if m.toolCalls != [] && Blank(content) then [] else [RoleItem(Assistant, content)];
    FlatMapNone(Triple);
    FlatMapOne(Triple, RoleItem(Assistant, content));
    FlatMapNone(CallItem);
    hide FlatMap;
    assert ContentWithRefusal(m) == Ok(content);
    if m.toolCalls == [] {
      assert said + FlatMap(CallItem, m.toolCalls) == said;
    }
  }
}
