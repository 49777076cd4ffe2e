/** What automatic routing to the native path gives up, seen from the preparation it skips. */
module Routing {
  import opened Sequences
  import opened Wrappers
  import opened Values
  import opened RequestMapper
  import opened Registry
  import opened ChatService
  import opened ToolAccounting

  lemma {:induction false} NoneBridged(tools: seq<ToolSpec>)
    ensures FlatMap(ToolExecution, tools) == [] <==> forall t | t in tools :: !Bridged(Some(t.name))
  {
    if tools != [] {
      var before, t := tools[..|tools| - 1], tools[|tools| - 1];
      assert tools == before + [t];
      NoneBridged(before);
    }
  }

  lemma NothingReplaced(ms: seq<Message>, bridged: map<string, Prior>, loads: Loads)
    ensures FlatMap(Executes(bridged, loads), ms) == [] <==> forall m | m in ms :: !Replaced(m, bridged)
  {
    var executions := FlatMap(Executes(bridged, loads), ms);
    if executions != [] {
      FlatMapMember(Executes(bridged, loads), ms, executions[0]);
    }
    if m :| m in ms && Replaced(m, bridged) {
      FlatMapMember(Executes(bridged, loads), ms, Execution(m, bridged, loads)[0]);
    }
  }

  /** Without a configuration of its own, a request has built-in tools only if a bridge turns web search on. */
  lemma NothingEnabled(executions: seq<BridgeExecution>)
    ensures BuiltinTools(EnableAll(None, executions)) == [] <==> !Uses(executions, WebSearchTool)
  {
    EnableAllEffect(None, executions);
    hide EnableAll, Uses;
  }

  /** One part of the content is audio. */
  predicate Heard(m: Message) {
    && m.content.List?
    && exists i :: 0 <= i < |m.content.items| && OfAudio(m.content.items[i])
  }

  predicate OfAudio(part: Value) {
    part.Dict? && "type" in part.fields && part.fields["type"] == Str("input_audio")
  }

  /** A tool message that preparation would replace by a web search. */
  predicate AsksWebSearch(m: Message, bridged: map<string, Prior>) {
    Replaced(m, bridged) && SpecFor(m, bridged).value.tool == WebSearchTool
  }

  lemma WebSearchUsed(req: Request, loads: Loads)
    requires FlatMap(ToolExecution, req.tools) == []
    ensures Uses(Executions(req, loads), WebSearchTool) <==>
            exists m :: m in req.messages && AsksWebSearch(m, BridgedCalls(req.messages, loads))
  {
    NoneBridged(req.tools);
    ExecutionsUse(req, loads, WebSearchTool);
    hide BridgedCalls, Executions, Uses, SpecFor, Replaced;
    forall t | t in req.tools ensures FindBridge(t.name).None? {
      assert !Bridged(Some(t.name));
    }
  }

  /**
   Automatic routing goes native exactly when what would be stripped is not there, no tool definition is bridged, and
   reasoning with tools comes only with audio. Tool messages are not looked at: of a request so routed, preparation
   would have enabled nothing iff no tool message is replaced by a web search, and executed nothing iff none is
   replaced.
   */
  lemma {:induction false} AutoRoutingLosesNothing(req: Request, loads: Loads)
    requires req.mode == Auto
    ensures SelectMode(req, true) == Ok(ChatMode) <==>
            && Stripped(req) == req
            && FlatMap(ToolExecution, req.tools) == []
            && (req.reasoningEffort.Some? && req.tools != [] ==> exists m :: m in req.messages && Heard(m))
    ensures SelectMode(req, true) == Ok(ChatMode) ==>
              req.inputItems == [] && req.builtins == None && forall m | m in req.messages :: m.responseItems == []
    ensures SelectMode(req, true) == Ok(ChatMode) ==>
              var bridged, executions := BridgedCalls(req.messages, loads), Executions(req, loads);
              && (BuiltinTools(EnableAll(req.builtins, executions)) == [] <==>
                  forall m | m in req.messages :: !AsksWebSearch(m, bridged))
              && (executions == [] <==> forall m | m in req.messages :: !Replaced(m, bridged))
  {
    NoneBridged(req.tools);
    NothingReplaced(req.messages, BridgedCalls(req.messages, loads), loads);
    NothingEnabled(Executions(req, loads));
    RoutedNative(req);
    if SelectMode(req, true) == Ok(ChatMode) {
      WebSearchUsed(req, loads);
      hide FlatMap, BridgedCalls, Replaced, AsksWebSearch, SelectMode, EnableAll, BuiltinTools, Uses;
      assert Executions(req, loads) == FlatMap(Executes(BridgedCalls(req.messages, loads), loads), req.messages);
    }
  }

  lemma RoutedNative(req: Request)
    requires req.mode == Auto
    ensures SelectMode(req, true) == Ok(ChatMode) <==>
            && Stripped(req) == req
            && (forall t | t in req.tools :: !Bridged(Some(t.name)))
            && (req.reasoningEffort.Some? && req.tools != [] ==> exists m :: m in req.messages && Heard(m))
    ensures SelectMode(req, true) == Ok(ChatMode) ==>
              req.inputItems == [] && req.builtins == None && forall m | m in req.messages :: m.responseItems == []
  {
    forall m | m in req.messages ensures HasAudio(m) <==> Heard(m) { AudioHeard(m); }
  }

  lemma AudioHeard(m: Message)
    ensures HasAudio(m) <==> Heard(m)
  {
    if m.content.List? {
      if part :| part in m.content.items && Get(part, "type") == Str("input_audio") {
        var i :| 0 <= i < |m.content.items| && m.content.items[i] == part;
        assert OfAudio(m.content.items[i]);
      }
      if i :| 0 <= i < |m.content.items| && OfAudio(m.content.items[i]) {
        assert Get(m.content.items[i], "type") == Str("input_audio");
      }
    }
  }

  /**
   A path that the client asks for is the path taken, and routing fails only when that is the native one and there is no
   adapter for it; without an adapter everything else goes to Responses.
   */
  lemma RequestedMode(req: Request, native: bool)
    ensures SelectMode(req, native).Err? <==> req.mode == ChatMode && !native
    ensures SelectMode(req, native) == Ok(ChatMode) ==> native && req.mode in {ChatMode, Auto}
    ensures SelectMode(req, native).Ok? ==> SelectMode(req, native).value in {ChatMode, ResponsesMode}
    ensures req.mode == ResponsesMode ==> SelectMode(req, native) == Ok(ResponsesMode)
    ensures req.mode == ChatMode && native ==> SelectMode(req, native) == Ok(ChatMode)
    ensures !native && req.mode == Auto ==> SelectMode(req, native) == Ok(ResponsesMode)
  {
    assert req.mode in {Auto, ResponsesMode, ChatMode} by {
      match req.mode
      case Auto =>
      case ResponsesMode =>
      case ChatMode =>
    }
  }

  // ----- the failing side -----

  const SEARCH_ASKED := Message.Message(Assistant, Null, None, None, [SEARCH_CALL], Null, [], false)

  const SEARCH_ANSWERED := Message.Message(Tool, Null, Some("web_search"), Some("c"), [], Null, [], false)

  const SEARCH_TRANSCRIPT :=
    Request(Auto, [], [SEARCH_ASKED, SEARCH_ANSWERED], [], None, None, 1, false, false, false, false, false, None)

  lemma SearchBridged(loads: Loads)
    ensures BridgedCalls(SEARCH_TRANSCRIPT.messages, loads) == map["c" := PriorOf(SEARCH_CALL, loads)]
  {
    assert [SEARCH_ASKED, SEARCH_ANSWERED] == [SEARCH_ASKED] + [SEARCH_ANSWERED];
    FlatMapAppend(CallsOf, [SEARCH_ASKED], [SEARCH_ANSWERED]);
    FlatMapOne(CallsOf, SEARCH_ASKED);
    FlatMapOne(CallsOf, SEARCH_ANSWERED);
    assert [SEARCH_CALL][..0] == [];
    CollectedSnoc([], SEARCH_CALL, loads);
    assert [] + [SEARCH_CALL] == [SEARCH_CALL];
  }

  /** A transcript with a bridged tool message and no tool definition goes native, where nobody will search. */
  lemma NativeLosesBridgedMessage(loads: Loads)
    ensures SelectMode(SEARCH_TRANSCRIPT, true) == Ok(ChatMode)
    ensures Executions(SEARCH_TRANSCRIPT, loads) != []
    ensures BuiltinTools(EnableAll(SEARCH_TRANSCRIPT.builtins, Executions(SEARCH_TRANSCRIPT, loads))) != []
  {
    var ms := SEARCH_TRANSCRIPT.messages;
    var bridged := BridgedCalls(ms, loads);
    SearchBridged(loads);
    assert Replaced(SEARCH_ANSWERED, bridged) && AsksWebSearch(SEARCH_ANSWERED, bridged);
    assert SEARCH_ANSWERED in ms;
    RoutedNative(SEARCH_TRANSCRIPT);
    assert Stripped(SEARCH_TRANSCRIPT).messages == ms;
    assert SelectMode(SEARCH_TRANSCRIPT, true) == Ok(ChatMode);
    hide SelectMode, EnableAll, BuiltinTools, Executions, BridgedCalls;
    AutoRoutingLosesNothing(SEARCH_TRANSCRIPT, loads);
  }
}
