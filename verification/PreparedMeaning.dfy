/** What a prepared request says, against what the client said. */
module PreparedMeaning {
  import opened Sequences
  import opened Wrappers
  import opened Values
  import opened RequestMapper
  import opened TranslationAtoms
  import opened Translatable
  import opened Registry
  import opened ChatService

  // ----- when preparation succeeds -----

  /** What bridging takes out of the transcript: answers of bridged calls, and messages with nothing else in them. */
  predicate TakenOut(m: Message, bridged: map<string, Prior>) {
    Replaced(m, bridged) || (m.role == Assistant && Swallowed(m, bridged))
  }

  lemma ForwardedGood(m: Message, bridged: map<string, Prior>)
    ensures (forall f | f in Forward(m, bridged) :: GoodMessage(f)) <==> TakenOut(m, bridged) || GoodMessage(m)
  {
    hide GoodContent, Replaced, Blank, Keeps;
    if m.role == Assistant && m.toolCalls != [] {
      var m' := m.(toolCalls := FlatMap(Keeps(bridged), m.toolCalls));
      assert GoodMessage(m') <==> GoodMessage(m);
      assert m' in [m'];
      assert !Replaced(m, bridged) by { OnlyToolReplaced(m, bridged); }
    } else {
      assert m in [m];
    }
  }

  lemma OnlyToolReplaced(m: Message, bridged: map<string, Prior>)
    ensures Replaced(m, bridged) ==> m.role == Tool
  {
  }

  /** One choice, no stop sequences, stream options on streams only, names on tool messages only, no unknown field. */
  predicate Accepted(req: Request) {
    && req.n == 1 && !req.hasStop && !req.unsupported
    && (req.hasStreamOptions ==> req.stream && !req.unknownStreamOption)
    && (req.builtins == None || !req.builtins.value.unsupported)
    && (forall t | t in req.tools :: !t.unsupported)
    && (forall m | m in req.messages ::
          m.role != Function && (m.name == None || m.role == Tool) && !m.unsupported
          && forall c | c in m.toolCalls :: !c.unsupported)
  }

  lemma CompatibleIff(req: Request)
    ensures Compatible(req) <==> Accepted(req)
  {
  }

  /** A request is prepared iff it is accepted and each message that bridging leaves in it can be translated. */
  lemma {:induction false} PreparedIff(req: Request, loads: Loads, svc: Service)
    ensures Prepare(req, loads, svc).Ok? <==>
            Accepted(req) &&
            forall m | m in req.messages :: TakenOut(m, BridgedCalls(req.messages, loads)) || GoodMessage(m)
  {
    var bridged := BridgedCalls(req.messages, loads);
    CompatibleIff(req);
    hide GoodMessage, TakenOut, Forward, Compatible, Accepted, Prepare;
    if Compatible(req) {
      PreparedInput(req, loads, svc);
      TranslatesIff(FlatMap(Forwards(bridged), req.messages));
      AllForwardedGood(req.messages, bridged);
    } else {
      if Prepare(req, loads, svc).Ok? { PreparedCompatible(req, loads, svc); }
    }
  }

  lemma {:induction false} AllForwardedGood(ms: seq<Message>, bridged: map<string, Prior>)
    ensures (forall f | f in FlatMap(Forwards(bridged), ms) :: GoodMessage(f)) <==>
            forall m | m in ms :: TakenOut(m, bridged) || GoodMessage(m)
  {
    hide GoodMessage, TakenOut, Forward;
    if ms != [] {
      var before, m := ms[..|ms| - 1], ms[|ms| - 1];
      assert ms == before + [m];
      AllForwardedGood(before, bridged);
      ForwardedGood(m, bridged);
    }
  }

  // ----- what it says -----

  function NotBridged(bridged: map<string, Prior>): Atom -> seq<Atom> {
    (a: Atom) => if a.Call? && a.id.Str? && a.id.s in bridged then [] else [a]
  }

  /** The message's replay items stand in its place. */
  predicate Replays(m: Message) {
    m.role == Assistant && m.responseItems != []
  }

  /** What a message says: what its replay items say if they stand in its place. */
  function Meant(m: Message): seq<Atom> {
    if Replays(m) then FlatMap(ItemAtoms, m.responseItems) else MessageAtoms(m)
  }

  /** What is to be left: nothing of a replaced answer, replay items whole or not at all, all but bridged calls. */
  function Expected(bridged: map<string, Prior>): Message -> seq<Atom> {
    (m: Message) => if Replaced(m, bridged) then []
                    else if Replays(m) then if Swallowed(m, bridged) then [] else Meant(m)
                    else FlatMap(NotBridged(bridged), MessageAtoms(m))
  }

  /** The user asks for the search that a replaced answer stood for. */
  function Asks(bridged: map<string, Prior>, loads: Loads): Message -> seq<Atom> {
    (m: Message) =>
      if !Replaced(m, bridged) || QueryOf(m, bridged, loads).None? then []
      else
        var request := if SpecFor(m, bridged).value.tool == WebSearchTool then "Use web search to answer this query: "
                       else "Use file search to answer this query: ";
        [Says(Str("user"), Text(Str(request + QueryOf(m, bridged, loads).value)))]
  }

  lemma {:induction false} NoneBridged(atoms: seq<Atom>, bridged: map<string, Prior>)
    requires forall a | a in atoms :: !a.Call?
    ensures FlatMap(NotBridged(bridged), atoms) == atoms
  {
    if atoms != [] {
      var before, a := atoms[..|atoms| - 1], atoms[|atoms| - 1];
      assert atoms == before + [a];
      NoneBridged(before, bridged);
    }
  }

  lemma {:induction false} CallsKept(calls: seq<ChatCall>, bridged: map<string, Prior>)
    ensures FlatMap(CallAtom, FlatMap(Keeps(bridged), calls)) == FlatMap(NotBridged(bridged), FlatMap(CallAtom, calls))
  {
    if calls != [] {
      var before, c := calls[..|calls| - 1], calls[|calls| - 1];
      CallsKept(before, bridged);
      FlatMapSnoc(CallAtom, calls);
      FlatMapSnoc(Keeps(bridged), calls);
      CallKept(c, bridged);
      hide FlatMap, CallAtom;
      FlatMapAppend(CallAtom, FlatMap(Keeps(bridged), before), Keeps(bridged)(c));
      FlatMapAppend(NotBridged(bridged), FlatMap(CallAtom, before), CallAtom(c));
    }
  }

  lemma CallKept(c: ChatCall, bridged: map<string, Prior>)
    ensures FlatMap(CallAtom, Keeps(bridged)(c)) == FlatMap(NotBridged(bridged), CallAtom(c))
  {
    FlatMapOne(CallAtom, c);
    FlatMapOne(NotBridged(bridged), CallAtom(c)[0]);
    FlatMapNone(CallAtom);
  }

  /** Everything a message says but its calls. */
  lemma OthersKept(m: Message, bridged: map<string, Prior>)
    ensures FlatMap(NotBridged(bridged), BodyAtoms(m) + RefusalAtoms(m)) == BodyAtoms(m) + RefusalAtoms(m)
    ensures FlatMap(NotBridged(bridged), StrayAtoms(m)) == StrayAtoms(m)
  {
    hide FlatMap, ChatContent, ToolContent;
    NoneBridged(BodyAtoms(m) + RefusalAtoms(m), bridged);
    NoneBridged(StrayAtoms(m), bridged);
  }

  lemma ExpectedSplit(m: Message, bridged: map<string, Prior>)
    ensures FlatMap(NotBridged(bridged), MessageAtoms(m)) ==
            BodyAtoms(m) + RefusalAtoms(m) + FlatMap(CallAtom, FlatMap(Keeps(bridged), m.toolCalls)) + StrayAtoms(m)
  {
    hide FlatMap, BodyAtoms, RefusalAtoms, StrayAtoms;
    var calls := FlatMap(CallAtom, m.toolCalls);
    FlatMapAppend(NotBridged(bridged), BodyAtoms(m) + RefusalAtoms(m) + calls, StrayAtoms(m));
    FlatMapAppend(NotBridged(bridged), BodyAtoms(m) + RefusalAtoms(m), calls);
    OthersKept(m, bridged);
    CallsKept(m.toolCalls, bridged);
  }

  lemma ForwardExpected(m: Message, bridged: map<string, Prior>)
    requires Replays(m) || Faithful(m)
    ensures FlatMap(Meant, Forward(m, bridged)) == Expected(bridged)(m)
  {
    hide FlatMap, Replaced, Keeps, MessageAtoms, Faithful;
    OnlyToolReplaced(m, bridged);
    if Forward(m, bridged) == [] {
      FlatMapNone(Meant);
      if !Replays(m) && !Replaced(m, bridged) { SwallowedSaysNothing(m, bridged); }
    } else {
      FlatMapOne(Meant, Forward(m, bridged)[0]);
      if !Replays(m) { ForwardedKeeps(m, bridged); }
    }
  }

  lemma SwallowedSaysNothing(m: Message, bridged: map<string, Prior>)
    requires Faithful(m) && m.role == Assistant && Swallowed(m, bridged)
    ensures FlatMap(NotBridged(bridged), MessageAtoms(m)) == []
  {
    ExpectedSplit(m, bridged);
    FlatMapNone(CallAtom);
    FlatMapNone(ChatPart);
    hide FlatMap;
  }

  lemma ForwardedKeeps(m: Message, bridged: map<string, Prior>)
    requires Forward(m, bridged) != [] && Faithful(m)
    ensures MessageAtoms(Forward(m, bridged)[0]) == FlatMap(NotBridged(bridged), MessageAtoms(m))
  {
    ExpectedSplit(m, bridged);
    FlatMapNone(Keeps(bridged));
    hide FlatMap, BodyAtoms, StrayAtoms, Replaced, Keeps;
    BodyUntouched(m, FlatMap(Keeps(bridged), m.toolCalls));
  }

  lemma BodyUntouched(m: Message, calls: seq<ChatCall>)
    ensures var m' := m.(toolCalls := calls);
            BodyAtoms(m') == BodyAtoms(m) && RefusalAtoms(m') == RefusalAtoms(m) && StrayAtoms(m') == StrayAtoms(m)
  {
    hide FlatMap, ChatContent, ToolContent;
  }

  lemma {:induction false} ForwardedExpected(ms: seq<Message>, bridged: map<string, Prior>)
    requires forall m | m in ms :: Replays(m) || Faithful(m)
    ensures FlatMap(Meant, FlatMap(Forwards(bridged), ms)) == FlatMap(Expected(bridged), ms)
  {
    forall m | m in ms ensures Expected(bridged)(m) == FlatMap(Meant, Forwards(bridged)(m)) {
      ForwardExpected(m, bridged);
    }
    FlatMapCompose(Meant, Forwards(bridged), Expected(bridged), ms);
  }

  lemma {:induction false} ForwardedFaithful(ms: seq<Message>, bridged: map<string, Prior>, f: Message)
    requires f in FlatMap(Forwards(bridged), ms)
    requires forall m | m in ms :: Replays(m) || Faithful(m)
    ensures Replays(f) || Faithful(f)
  {
    FlatMapMember(Forwards(bridged), ms, f);
    var m :| m in ms && f in Forward(m, bridged);
    hide FlatMap, Replaced, Keeps;
  }

  lemma TranslatedMeans(m: Message)
    requires Translate(m).Ok? && (Replays(m) || Faithful(m))
    ensures FlatMap(ItemAtoms, Translate(m).value) == Meant(m)
  {
    hide FlatMap, KeptAtoms, ContentWithRefusal, ToolOutput, MessageAtoms, Faithful;
    if !Replays(m) {
      var bare := m.(responseItems := []);
      StateUnread(m);
      TranslateKeeps(bare);
      KeptWhenFaithful(bare);
    }
  }

  /** Without effect on any other role, replay items change neither what a message says nor what it becomes. */
  lemma StateUnread(m: Message)
    requires !Replays(m)
    ensures var bare := m.(responseItems := []);
            && Translate(bare) == Translate(m)
            && MessageAtoms(bare) == MessageAtoms(m)
            && (Faithful(m) <==> Faithful(bare))
  {
    hide FlatMap, ChatContent, ToolContent, MessageContent, ToolOutput;
  }

  lemma {:induction false} AllTranslatedMean(ms: seq<Message>)
    requires TranslateAll(ms).Ok? && forall m | m in ms :: Replays(m) || Faithful(m)
    ensures FlatMap(ItemAtoms, TranslateAll(ms).value) == FlatMap(Meant, ms)
  {
    if ms == [] {
      FlatMapNone(ItemAtoms);
      FlatMapNone(Meant);
    } else {
      var before, m := ms[..|ms| - 1], ms[|ms| - 1];
      assert ms == before + [m];
      FlatMapSnoc(Meant, ms);
      hide FlatMap, Translate, Meant, Faithful, Replays;
      AllTranslatedMean(before);
      TranslatedMeans(m);
      FlatMapAppend(ItemAtoms, TranslateAll(before).value, Translate(m).value);
    }
  }

  lemma AskSays(m: Message, bridged: map<string, Prior>, loads: Loads)
    ensures FlatMap(ItemAtoms, Ask(m, bridged, loads)) == Asks(bridged, loads)(m)
  {
    if Ask(m, bridged, loads) == [] {
      FlatMapNone(ItemAtoms);
    } else {
      var tool, q := SpecFor(m, bridged).value.tool, QueryOf(m, bridged, loads).value;
      FlatMapOne(ItemAtoms, Prompt(tool, q));
      PromptSays(tool, q);
      hide FlatMap, QueryOf, SpecFor;
    }
  }

  /** The prompt is the user's. */
  lemma PromptSays(tool: Builtin, query: string)
    ensures Get(Prompt(tool, query), "role") == Str("user")
    ensures var request := if tool == WebSearchTool then "Use web search to answer this query: "
                           else "Use file search to answer this query: ";
            ItemAtoms(Prompt(tool, query)) == [Says(Str("user"), Text(Str(request + query)))]
  {
    assert Get(Prompt(tool, query), "content").s != "";
  }

  lemma {:induction false} AsksSay(ms: seq<Message>, bridged: map<string, Prior>, loads: Loads)
    ensures FlatMap(ItemAtoms, FlatMap(AsksFor(bridged, loads), ms)) == FlatMap(Asks(bridged, loads), ms)
  {
    forall m | m in ms ensures Asks(bridged, loads)(m) == FlatMap(ItemAtoms, AsksFor(bridged, loads)(m)) {
      AskSays(m, bridged, loads);
    }
    FlatMapCompose(ItemAtoms, AsksFor(bridged, loads), Asks(bridged, loads), ms);
  }

  /**
   The payload of a prepared request says what the input items say, then what each message or the replay items in its
   place say, but for bridged calls and the answers to them, in order, and then, in the user's name, the searches those
   answers stood for.
   */
  lemma {:induction false} PreparedSays(req: Request, loads: Loads, svc: Service)
    requires Prepare(req, loads, svc).Ok?
    requires forall m | m in req.messages :: Replays(m) || Faithful(m)
    ensures var bridged := BridgedCalls(req.messages, loads);
            FlatMap(ItemAtoms, Prepare(req, loads, svc).value.input) ==
            FlatMap(ItemAtoms, req.inputItems) + FlatMap(Expected(bridged), req.messages)
            + FlatMap(Asks(bridged, loads), req.messages)
  {
    var ms, bridged := req.messages, BridgedCalls(req.messages, loads);
    var forwarded, asks := FlatMap(Forwards(bridged), ms), FlatMap(AsksFor(bridged, loads), ms);
    hide FlatMap, Prepare, Compatible, TranslateAll, Faithful, Replays, BridgedCalls;
    PreparedCompatible(req, loads, svc);
    PreparedInput(req, loads, svc);
    var items := TranslateAll(forwarded).value;
    forall f | f in forwarded ensures Replays(f) || Faithful(f) { ForwardedFaithful(ms, bridged, f); }
    AllTranslatedMean(forwarded);
    ForwardedExpected(ms, bridged);
    AsksSay(ms, bridged, loads);
    FlatMapAppend(ItemAtoms, req.inputItems + items, asks);
    FlatMapAppend(ItemAtoms, req.inputItems, items);
  }
}
