/** Matched call/output pairs survive the bridging passes. */
module Pairing {
  import opened Sequences
  import opened Wrappers
  import opened Values
  import opened RequestMapper
  import opened Registry
  import opened ChatService

  datatype Token = Asked(id: Value) | Replied(id: Value)

  function ItemTokens(item: Value): seq<Token> {
    var t := Get(item, "type");
    if t == Str("function_call") then [Asked(Get(item, "call_id"))]
    else if t == Str("function_call_output") then [Replied(Get(item, "call_id"))]
    else []
  }

  function CallToken(c: ChatCall): seq<Token> {
    [Asked(StrOrNull(c.id))]
  }

  /** The calls and replies of a message: of its replay items when it has some, else of the message itself. */
  function MessageTokens(m: Message): seq<Token> {
    match m.role
    case Assistant =>
      if m.responseItems != [] then FlatMap(ItemTokens, m.responseItems) else FlatMap(CallToken, m.toolCalls)
    case Tool => [Replied(StrOrNull(m.toolCallId))]
    case _ => []
  }

  function With(id: Value): Token -> seq<Token> {
    (t: Token) => if t.id == id then [t] else []
  }

  /** The calls and replies that carry `id`, in order. */
  function About(tokens: seq<Token>, id: Value): seq<Token> {
    FlatMap(With(id), tokens)
  }

  /** Every id that occurs is called once and answered once, in that order. */
  ghost predicate Paired(tokens: seq<Token>) {
    forall id :: About(tokens, id) == [] || About(tokens, id) == [Asked(id), Replied(id)]
  }

  predicate IsBridged(bridged: map<string, Prior>, id: Value) {
    id.Str? && id.s in bridged
  }

  // ----- what reaches the payload -----

  lemma {:induction false} CallItemTokens(calls: seq<ChatCall>)
    ensures FlatMap(ItemTokens, FlatMap(CallItem, calls)) == FlatMap(CallToken, calls)
  {
    if calls != [] {
      var before, c := calls[..|calls| - 1], calls[|calls| - 1];
      CallItemTokens(before);
      FlatMapAppend(ItemTokens, FlatMap(CallItem, before), CallItem(c));
      CallItemToken(c);
    }
  }

  lemma CallItemToken(c: ChatCall)
    ensures FlatMap(ItemTokens, CallItem(c)) == CallToken(c)
  {
    FlatMapOne(ItemTokens, CallItem(c)[0]);
  }

  lemma RoleItemSilent(role: Role, content: Value)
    ensures FlatMap(ItemTokens, [RoleItem(role, content)]) == []
  {
    FlatMapOne(ItemTokens, RoleItem(role, content));
  }

  lemma TranslateTokens(m: Message)
    requires Translate(m).Ok?
    ensures FlatMap(ItemTokens, Translate(m).value) == MessageTokens(m)
  {
    if m.role == Assistant && m.responseItems != [] {
      assert Translate(m).value == m.responseItems;
    } else if m.role == Tool {
      FlatMapOne(ItemTokens, OutputItem(m.toolCallId, ToolOutput(m.content).value));
    } else {
      var content := ContentWithRefusal(m).value;
      RoleItemSilent(m.role, content);
      if m.role == Assistant && m.toolCalls != [] {
        CallItemTokens(m.toolCalls);
        FlatMapAppend(ItemTokens, if Blank(content) then [] else [RoleItem(Assistant, content)],
                      FlatMap(CallItem, m.toolCalls));
      }
    }
  }

  lemma {:induction false} TranslateAllTokens(ms: seq<Message>)
    requires TranslateAll(ms).Ok?
    ensures FlatMap(ItemTokens, TranslateAll(ms).value) == FlatMap(MessageTokens, ms)
  {
    if ms != [] {
      var before, m := ms[..|ms| - 1], ms[|ms| - 1];
      FlatMapSnoc(MessageTokens, ms);
      hide FlatMap, Translate, MessageTokens, ItemTokens;
      assert m in ms;
      TranslateAllTokens(before);
      TranslateTokens(m);
      assert TranslateAll(ms).value == TranslateAll(before).value + Translate(m).value;
      FlatMapAppend(ItemTokens, TranslateAll(before).value, Translate(m).value);
    }
  }

  lemma AskSilent(m: Message, bridged: map<string, Prior>, loads: Loads)
    ensures FlatMap(ItemTokens, Ask(m, bridged, loads)) == []
  {
    if Ask(m, bridged, loads) != [] {
      FlatMapOne(ItemTokens, Ask(m, bridged, loads)[0]);
    }
  }

  lemma {:induction false} AsksSilent(ms: seq<Message>, bridged: map<string, Prior>, loads: Loads)
    ensures FlatMap(ItemTokens, FlatMap(AsksFor(bridged, loads), ms)) == []
  {
    if ms != [] {
      var before, m := ms[..|ms| - 1], ms[|ms| - 1];
      AsksSilent(before, bridged, loads);
      AskSilent(m, bridged, loads);
      FlatMapSnoc(AsksFor(bridged, loads), ms);
      hide FlatMap, Ask;
      FlatMapAppend(ItemTokens, FlatMap(AsksFor(bridged, loads), before), Ask(m, bridged, loads));
    }
  }

  /** What bridging leaves of a message's calls and replies. */
  function KeptTokens(bridged: map<string, Prior>): Message -> seq<Token> {
    (m: Message) => FlatMap(MessageTokens, Forward(m, bridged))
  }

  /** The input items, as one more message that carries them as replay items, and the messages. */
  function Conversation(req: Request): seq<Message> {
    [InputMessage(req.inputItems)] + req.messages
  }

  function InputMessage(items: seq<Value>): Message {
    Message.Message(Assistant, Null, None, None, [], Null, items, false)
  }

  lemma InputTokens(items: seq<Value>, bridged: map<string, Prior>)
    ensures MessageTokens(InputMessage(items)) == FlatMap(ItemTokens, items)
    ensures KeptTokens(bridged)(InputMessage(items)) == FlatMap(ItemTokens, items)
  {
    FlatMapNone(ItemTokens);
    FlatMapNone(CallToken);
    FlatMapOne(MessageTokens, InputMessage(items));
    hide FlatMap;
    assert Forward(InputMessage(items), bridged) == [InputMessage(items)];
  }

  /** What the items and messages say, and what is left of it. */
  lemma ConversationTokens(req: Request, bridged: map<string, Prior>)
    ensures AllTokens(Conversation(req)) == FlatMap(ItemTokens, req.inputItems) + AllTokens(req.messages)
    ensures FlatMap(KeptTokens(bridged), Conversation(req)) ==
            FlatMap(ItemTokens, req.inputItems) + FlatMap(KeptTokens(bridged), req.messages)
  {
    var m := InputMessage(req.inputItems);
    InputTokens(req.inputItems, bridged);
    FlatMapAppend(MessageTokens, [m], req.messages);
    FlatMapAppend(KeptTokens(bridged), [m], req.messages);
    FlatMapOne(MessageTokens, m);
    FlatMapOne(KeptTokens(bridged), m);
    hide FlatMap, MessageTokens, KeptTokens;
  }

  lemma PayloadTokens(req: Request, loads: Loads, svc: Service)
    requires Prepare(req, loads, svc).Ok?
    ensures FlatMap(ItemTokens, Prepare(req, loads, svc).value.input) ==
            FlatMap(KeptTokens(BridgedCalls(req.messages, loads)), Conversation(req))
  {
    hide FlatMap, TranslateAll, Prepare, BridgedCalls, Compatible, KeptTokens, Conversation;
    PreparedCompatible(req, loads, svc);
    PreparedInput(req, loads, svc);
    var ms, bridged := req.messages, BridgedCalls(req.messages, loads);
    var items, asks := TranslateAll(FlatMap(Forwards(bridged), ms)).value, FlatMap(AsksFor(bridged, loads), ms);
    assert Prepare(req, loads, svc).value.input == req.inputItems + items + asks;
    SplitTokens(req.inputItems + items, asks);
    SplitTokens(req.inputItems, items);
    AsksSilent(ms, bridged, loads);
    ForwardedTokens(ms, bridged);
    ConversationTokens(req, bridged);
  }

  lemma SplitTokens(items: seq<Value>, asks: seq<Value>)
    ensures FlatMap(ItemTokens, items + asks) == FlatMap(ItemTokens, items) + FlatMap(ItemTokens, asks)
  {
    FlatMapAppend(ItemTokens, items, asks);
  }

  lemma ForwardedTokens(ms: seq<Message>, bridged: map<string, Prior>)
    requires TranslateAll(FlatMap(Forwards(bridged), ms)).Ok?
    ensures FlatMap(ItemTokens, TranslateAll(FlatMap(Forwards(bridged), ms)).value) == FlatMap(KeptTokens(bridged), ms)
  {
    TranslateAllTokens(FlatMap(Forwards(bridged), ms));
    FlatMapCompose(MessageTokens, Forwards(bridged), KeptTokens(bridged), ms);
  }

  // ----- message by message, for one id -----

  lemma {:induction false} KeptCalls(calls: seq<ChatCall>, bridged: map<string, Prior>, id: Value)
    ensures About(FlatMap(CallToken, FlatMap(Keeps(bridged), calls)), id) ==
            if IsBridged(bridged, id) then [] else About(FlatMap(CallToken, calls), id)
  {
    if calls != [] {
      var before, c := calls[..|calls| - 1], calls[|calls| - 1];
      KeptCalls(before, bridged, id);
      FlatMapAppend(CallToken, FlatMap(Keeps(bridged), before), Keeps(bridged)(c));
      FlatMapAppend(With(id), FlatMap(CallToken, before), CallToken(c));
      FlatMapOne(CallToken, c);
      FlatMapOne(With(id), CallToken(c)[0]);
      FlatMapAppend(With(id), FlatMap(CallToken, FlatMap(Keeps(bridged), before)),
                    FlatMap(CallToken, Keeps(bridged)(c)));
    }
  }

  /** What the bridging passes drop of a message's calls and replies. */
  predicate Drops(m: Message, bridged: map<string, Prior>, id: Value) {
    match m.role
    case Assistant => if m.responseItems != [] then Swallowed(m, bridged) else IsBridged(bridged, id)
    case Tool => Replaced(m, bridged)
    case _ => false
  }

  lemma KeptCallsAbout(m: Message, bridged: map<string, Prior>, id: Value)
    requires m.role == Assistant && m.toolCalls != [] && m.responseItems == []
    ensures About(KeptTokens(bridged)(m), id) == if IsBridged(bridged, id) then [] else About(MessageTokens(m), id)
  {
    var m' := m.(toolCalls := FlatMap(Keeps(bridged), m.toolCalls));
    KeptCalls(m.toolCalls, bridged, id);
    FlatMapOne(MessageTokens, m');
    assert m'.toolCalls == [] ==> MessageTokens(m') == [];
    assert KeptTokens(bridged)(m) == MessageTokens(m');
  }

  lemma KeptReplayAbout(m: Message, bridged: map<string, Prior>, id: Value)
    requires m.role == Assistant && m.responseItems != []
    ensures About(KeptTokens(bridged)(m), id) == if Swallowed(m, bridged) then [] else About(MessageTokens(m), id)
  {
    if !Swallowed(m, bridged) {
      FlatMapOne(MessageTokens, Forward(m, bridged)[0]);
      hide FlatMap;
      assert MessageTokens(Forward(m, bridged)[0]) == MessageTokens(m);
    }
  }

  lemma KeptReplyAbout(m: Message, bridged: map<string, Prior>, id: Value)
    requires m.role == Tool
    ensures About(KeptTokens(bridged)(m), id) == if Replaced(m, bridged) then [] else About(MessageTokens(m), id)
  {
    FlatMapOne(MessageTokens, m);
    assert Forward(m, bridged) == [] ==> KeptTokens(bridged)(m) == [] && About([], id) == [];
    hide FlatMap, SpecFor;
  }

  lemma KeptAbout(m: Message, bridged: map<string, Prior>, id: Value)
    ensures About(KeptTokens(bridged)(m), id) == if Drops(m, bridged, id) then [] else About(MessageTokens(m), id)
  {
    if m.role == Assistant && m.responseItems != [] {
      KeptReplayAbout(m, bridged, id);
    } else if m.role == Assistant && m.toolCalls != [] {
      KeptCallsAbout(m, bridged, id);
    } else if m.role == Tool {
      KeptReplyAbout(m, bridged, id);
    } else {
      FlatMapOne(MessageTokens, m);
    }
  }

  // ----- the whole transcript, for one id -----

  function AllTokens(ms: seq<Message>): seq<Token> {
    FlatMap(MessageTokens, ms)
  }

  lemma AboutMember(tokens: seq<Token>, t: Token)
    ensures t in About(tokens, t.id) <==> t in tokens
  {
    FlatMapMember(With(t.id), tokens, t);
  }

  lemma AboutConcat(a: seq<Token>, b: seq<Token>, id: Value)
    ensures About(a + b, id) == About(a, id) + About(b, id)
  {
    FlatMapAppend(With(id), a, b);
  }

  /** A message with the token `t` drops it. */
  predicate Sheds(ms: seq<Message>, bridged: map<string, Prior>, t: Token) {
    exists m :: m in ms && t in MessageTokens(m) && Drops(m, bridged, t.id)
  }

  /** What is left of the calls and replies with one id. */
  function Left(all: seq<Token>, id: Value, askShed: bool, replyShed: bool): seq<Token> {
    (if Asked(id) in all && !askShed then [Asked(id)] else [])
    + (if Replied(id) in all && !replyShed then [Replied(id)] else [])
  }

  /** So far the id is unheard of, called, or called and answered. */
  predicate InOrder(all: seq<Token>, id: Value) {
    all in {[], [Asked(id)], [Asked(id), Replied(id)]}
  }

  lemma ShedsMore(before: seq<Message>, m: Message, bridged: map<string, Prior>, t: Token)
    ensures Sheds(before + [m], bridged, t) <==>
            Sheds(before, bridged, t) || (t in MessageTokens(m) && Drops(m, bridged, t.id))
  {
    hide MessageTokens, Drops;
    assert m in before + [m];
    if Sheds(before, bridged, t) {
      var n :| n in before && t in MessageTokens(n) && Drops(n, bridged, t.id);
      assert n in before + [m];
    }
  }

  lemma {:induction false} ShedsPresent(ms: seq<Message>, bridged: map<string, Prior>, t: Token)
    requires Sheds(ms, bridged, t)
    ensures t in About(AllTokens(ms), t.id)
  {
    var m :| m in ms && t in MessageTokens(m) && Drops(m, bridged, t.id);
    FlatMapMember(MessageTokens, ms, t);
    AboutMember(AllTokens(ms), t);
  }

  lemma {:induction false} TranscriptAbout(ms: seq<Message>, bridged: map<string, Prior>, id: Value)
    requires InOrder(About(AllTokens(ms), id), id)
    ensures About(FlatMap(KeptTokens(bridged), ms), id) ==
            Left(About(AllTokens(ms), id), id, Sheds(ms, bridged, Asked(id)), Sheds(ms, bridged, Replied(id)))
  {
    if ms != [] {
      var before, m := ms[..|ms| - 1], ms[|ms| - 1];
      assert ms == before + [m];
      FlatMapSnoc(MessageTokens, ms);
      FlatMapSnoc(KeptTokens(bridged), ms);
      AboutConcat(AllTokens(before), MessageTokens(m), id);
      AboutConcat(FlatMap(KeptTokens(bridged), before), KeptTokens(bridged)(m), id);
      var all, mine := About(AllTokens(before), id), About(MessageTokens(m), id);
      ShorterInOrder(all, mine, id);
      TranscriptAbout(before, bridged, id);
      KeptAbout(m, bridged, id);
      TokenFates(before, m, bridged, Asked(id));
      TokenFates(before, m, bridged, Replied(id));
      hide FlatMap, MessageTokens, Drops, Sheds, About, KeptTokens;
      LeftStep(all, mine, id, Drops(m, bridged, id), Sheds(before, bridged, Asked(id)),
               Sheds(before, bridged, Replied(id)));
    }
  }

  lemma ShorterInOrder(all: seq<Token>, mine: seq<Token>, id: Value)
    requires InOrder(all + mine, id)
    ensures InOrder(all, id) && mine == (all + mine)[|all|..]
  {
    var both := all + mine;
    if |all| == 1 {
      assert all[0] == both[0];
      assert all == [Asked(id)];
    } else if |all| == 2 {
      assert all[0] == both[0] && all[1] == both[1];
      assert all == [Asked(id), Replied(id)];
    }
  }

  lemma TokenFates(before: seq<Message>, m: Message, bridged: map<string, Prior>, t: Token)
    ensures Sheds(before + [m], bridged, t) <==>
            Sheds(before, bridged, t) || (t in About(MessageTokens(m), t.id) && Drops(m, bridged, t.id))
    ensures Sheds(before, bridged, t) ==> t in About(AllTokens(before), t.id)
  {
    ShedsMore(before, m, bridged, t);
    AboutMember(MessageTokens(m), t);
    if Sheds(before, bridged, t) {
      ShedsPresent(before, bridged, t);
    }
  }

  lemma LeftStep(all: seq<Token>, mine: seq<Token>, id: Value, dropped: bool, askShed: bool, replyShed: bool)
    requires InOrder(all, id) && InOrder(all + mine, id)
    requires (askShed ==> Asked(id) in all) && (replyShed ==> Replied(id) in all)
    ensures Left(all, id, askShed, replyShed) + (if dropped then [] else mine) ==
            Left(all + mine, id,
                 askShed || (Asked(id) in mine && dropped), replyShed || (Replied(id) in mine && dropped))
  {
    var both := all + mine;
    if all == [] {
      assert both == mine;
    } else if all == [Asked(id)] {
      assert mine == both[1..];
    } else {
      assert mine == [];
    }
  }

  // ----- the theorem -----

  /** Of every call and its reply, bridging drops both or neither. */
  ghost predicate DropsInPairs(ms: seq<Message>, bridged: map<string, Prior>) {
    forall m, n, id | m in ms && n in ms && Asked(id) in MessageTokens(m) && Replied(id) in MessageTokens(n) ::
      Drops(m, bridged, id) <==> Drops(n, bridged, id)
  }

  /** Replay items that reach the payload speak of `id`. */
  predicate Replays(m: Message, bridged: map<string, Prior>, id: Value) {
    && m.role == Assistant && m.responseItems != [] && !Swallowed(m, bridged)
    && exists t :: t in MessageTokens(m) && t.id == id
  }

  /**
   In a conversation whose calls and replies are paired, input items and replay items counted, the payload's are paired
   iff bridging drops both or neither of each pair; and a bridged id occurs in the payload iff input items, or replay
   items that are kept, speak of it.
   */
  lemma PairingSurvivesBridging(req: Request, loads: Loads, svc: Service)
    requires Prepare(req, loads, svc).Ok? && Paired(AllTokens(Conversation(req)))
    ensures var payload, bridged :=
              FlatMap(ItemTokens, Prepare(req, loads, svc).value.input), BridgedCalls(req.messages, loads);
            && (Paired(payload) <==> DropsInPairs(Conversation(req), bridged))
            && (forall id | IsBridged(bridged, id) ::
                  About(payload, id) == [] <==> forall m | m in Conversation(req) :: !Replays(m, bridged, id))
  {
    var ms, bridged := Conversation(req), BridgedCalls(req.messages, loads);
    PayloadTokens(req, loads, svc);
    hide FlatMap, Prepare, BridgedCalls, About, MessageTokens, Conversation, KeptTokens;
    KeptPaired(ms, bridged);
    forall id | IsBridged(bridged, id)
      ensures About(FlatMap(KeptTokens(bridged), ms), id) == [] <==> forall m | m in ms :: !Replays(m, bridged, id)
    {
      BridgedGone(ms, bridged, id);
    }
  }

  lemma KeptPaired(ms: seq<Message>, bridged: map<string, Prior>)
    requires Paired(AllTokens(ms))
    ensures Paired(FlatMap(KeptTokens(bridged), ms)) <==> DropsInPairs(ms, bridged)
  {
    hide FlatMap, About, MessageTokens, Drops, KeptTokens;
    var kept := FlatMap(KeptTokens(bridged), ms);
    if DropsInPairs(ms, bridged) {
      forall id ensures About(kept, id) == [] || About(kept, id) == [Asked(id), Replied(id)] {
        assert About(AllTokens(ms), id) == [] || About(AllTokens(ms), id) == [Asked(id), Replied(id)];
        TranscriptAbout(ms, bridged, id);
        ShedsTogether(ms, bridged, id);
      }
    } else {
      var m, n, id :| m in ms && n in ms && Asked(id) in MessageTokens(m) && Replied(id) in MessageTokens(n)
                      && Drops(m, bridged, id) != Drops(n, bridged, id);
      SplitPair(ms, bridged, m, n, id);
    }
  }

  lemma ShedsTogether(ms: seq<Message>, bridged: map<string, Prior>, id: Value)
    requires DropsInPairs(ms, bridged) && About(AllTokens(ms), id) in {[], [Asked(id), Replied(id)]}
    ensures Sheds(ms, bridged, Asked(id)) <==> Sheds(ms, bridged, Replied(id))
  {
    hide FlatMap, About, MessageTokens, Drops;
    var all := About(AllTokens(ms), id);
    if Sheds(ms, bridged, Asked(id)) {
      ShedsPresent(ms, bridged, Asked(id));
      assert Replied(id) == all[1];
      var n := HolderOf(ms, Replied(id));
    }
    if Sheds(ms, bridged, Replied(id)) {
      ShedsPresent(ms, bridged, Replied(id));
      assert Asked(id) == all[0];
      var m := HolderOf(ms, Asked(id));
    }
  }

  lemma HolderOf(ms: seq<Message>, t: Token) returns (m: Message)
    requires t in About(AllTokens(ms), t.id)
    ensures m in ms && t in MessageTokens(m)
  {
    AboutMember(AllTokens(ms), t);
    FlatMapMember(MessageTokens, ms, t);
    m :| m in ms && t in MessageTokens(m);
  }

  /** A token that two different messages hold occurs twice. */
  lemma {:induction false} HeldTwice(ms: seq<Message>, t: Token, m: Message, n: Message)
    requires m in ms && n in ms && m != n && t in MessageTokens(m) && t in MessageTokens(n)
    ensures multiset(About(AllTokens(ms), t.id))[t] >= 2
  {
    var before, last := ms[..|ms| - 1], ms[|ms| - 1];
    assert ms == before + [last];
    FlatMapSnoc(MessageTokens, ms);
    AboutConcat(AllTokens(before), MessageTokens(last), t.id);
    AboutMember(MessageTokens(last), t);
    hide FlatMap, About, MessageTokens;
    if last == m || last == n {
      var other := if last == m then n else m;
      assert other in before;
      HeldOnce(before, t, other);
    } else {
      HeldTwice(before, t, m, n);
    }
  }

  lemma HeldOnce(ms: seq<Message>, t: Token, m: Message)
    requires m in ms && t in MessageTokens(m)
    ensures t in About(AllTokens(ms), t.id)
  {
    FlatMapMember(MessageTokens, ms, t);
    AboutMember(AllTokens(ms), t);
  }

  lemma OneHolder(ms: seq<Message>, bridged: map<string, Prior>, t: Token, m: Message)
    requires About(AllTokens(ms), t.id) == [Asked(t.id), Replied(t.id)] && m in ms && t in MessageTokens(m)
    ensures Sheds(ms, bridged, t) <==> Drops(m, bridged, t.id)
  {
    hide FlatMap, About, MessageTokens, Drops;
    assert multiset([Asked(t.id), Replied(t.id)])[t] <= 1;
    if n :| n in ms && t in MessageTokens(n) && Drops(n, bridged, t.id) != Drops(m, bridged, t.id) {
      HeldTwice(ms, t, m, n);
    }
  }

  lemma SplitPair(ms: seq<Message>, bridged: map<string, Prior>, m: Message, n: Message, id: Value)
    requires Paired(AllTokens(ms)) && m in ms && n in ms
    requires Asked(id) in MessageTokens(m) && Replied(id) in MessageTokens(n)
    requires Drops(m, bridged, id) != Drops(n, bridged, id)
    ensures !Paired(FlatMap(KeptTokens(bridged), ms))
  {
    hide FlatMap, About, MessageTokens, Drops, KeptTokens, Sheds;
    HeldOnce(ms, Asked(id), m);
    assert About(AllTokens(ms), id) == [Asked(id), Replied(id)];
    OneHolder(ms, bridged, Asked(id), m);
    OneHolder(ms, bridged, Replied(id), n);
    TranscriptAbout(ms, bridged, id);
    assert |About(FlatMap(KeptTokens(bridged), ms), id)| == 1;
  }

  lemma BridgedMessage(m: Message, bridged: map<string, Prior>, id: Value)
    requires IsBridged(bridged, id)
    ensures About(KeptTokens(bridged)(m), id) == [] <==> !Replays(m, bridged, id)
  {
    KeptAbout(m, bridged, id);
    if m.role == Assistant && m.responseItems != [] {
      NoneAboutIff(MessageTokens(m), id);
    } else if m.role == Tool {
      FlatMapOne(With(id), Replied(StrOrNull(m.toolCallId)));
    }
  }

  lemma NoneAboutIff(tokens: seq<Token>, id: Value)
    ensures About(tokens, id) == [] <==> forall t | t in tokens :: t.id != id
  {
    if t :| t in tokens && t.id == id {
      AboutMember(tokens, t);
    }
    if About(tokens, id) != [] {
      FlatMapMember(With(id), tokens, About(tokens, id)[0]);
    }
  }

  lemma NothingKept(bridged: map<string, Prior>, id: Value)
    ensures About(FlatMap(KeptTokens(bridged), []), id) == []
  {
    FlatMapNone(KeptTokens(bridged));
    FlatMapNone(With(id));
    hide FlatMap;
  }

  lemma {:induction false} BridgedGone(ms: seq<Message>, bridged: map<string, Prior>, id: Value)
    requires IsBridged(bridged, id)
    ensures About(FlatMap(KeptTokens(bridged), ms), id) == [] <==> forall m | m in ms :: !Replays(m, bridged, id)
  {
    if ms == [] {
      NothingKept(bridged, id);
    } else {
      hide FlatMap, About, KeptTokens, Replays;
      var before, m := ms[..|ms| - 1], ms[|ms| - 1];
      assert ms == before + [m];
      BridgedGone(before, bridged, id);
      BridgedMessage(m, bridged, id);
      FlatMapSnoc(KeptTokens(bridged), ms);
      AboutConcat(FlatMap(KeptTokens(bridged), before), KeptTokens(bridged)(m), id);
    }
  }

  // ----- transcripts without replay items -----

  /** A tool message whose own name is bridged although its call was not. */
  predicate Misnamed(m: Message, bridged: map<string, Prior>) {
    m.role == Tool && m.name.Some? && m.name.value != "" && Bridged(m.name) && PriorFor(m, bridged) == None
  }

  lemma PlainDrops(m: Message, bridged: map<string, Prior>, t: Token)
    requires m.role == Assistant ==> m.responseItems == []
    requires t in MessageTokens(m)
    ensures Drops(m, bridged, t.id) <==> IsBridged(bridged, t.id) || Misnamed(m, bridged)
    ensures t.Asked? ==> m.role == Assistant && !Misnamed(m, bridged)
    ensures t.Replied? ==> m.role == Tool && t.id == StrOrNull(m.toolCallId)
  {
    if m.role == Assistant {
      CallTokensAsk(m.toolCalls, t);
    }
  }

  lemma CallTokensAsk(calls: seq<ChatCall>, t: Token)
    requires t in FlatMap(CallToken, calls)
    ensures t.Asked?
  {
    FlatMapMember(CallToken, calls, t);
  }

  /** Without replay items, pairs are dropped together exactly when no tool message is misnamed. */
  lemma DropsInPairsIffNamed(ms: seq<Message>, bridged: map<string, Prior>)
    requires Paired(AllTokens(ms)) && forall m | m in ms && m.role == Assistant :: m.responseItems == []
    ensures DropsInPairs(ms, bridged) <==> forall m | m in ms :: !Misnamed(m, bridged)
  {
    hide FlatMap, About, MessageTokens, Drops, Misnamed;
    forall m, n, id | m in ms && n in ms && Asked(id) in MessageTokens(m) && Replied(id) in MessageTokens(n)
      ensures Drops(m, bridged, id) == Drops(n, bridged, id) || Misnamed(n, bridged)
    {
      PlainDrops(m, bridged, Asked(id));
      PlainDrops(n, bridged, Replied(id));
    }
    if n :| n in ms && Misnamed(n, bridged) {
      MisnamedSplits(ms, bridged, n);
    }
  }

  lemma MisnamedSplits(ms: seq<Message>, bridged: map<string, Prior>, n: Message)
    requires Paired(AllTokens(ms)) && forall m | m in ms && m.role == Assistant :: m.responseItems == []
    requires n in ms && Misnamed(n, bridged)
    ensures !DropsInPairs(ms, bridged)
  {
    var id := StrOrNull(n.toolCallId);
    assert MessageTokens(n) == [Replied(id)] && !IsBridged(bridged, id);
    HeldOnce(ms, Replied(id), n);
    var all := About(AllTokens(ms), id);
    assert all == [Asked(id), Replied(id)] && Asked(id) == all[0];
    var m := HolderOf(ms, Asked(id));
    PlainDrops(m, bridged, Asked(id));
    PlainDrops(n, bridged, Replied(id));
  }

  /** A client that repeats the called name, or gives none, never misnames a reply. */
  lemma ConsistentNames(ms: seq<Message>, loads: Loads)
    requires forall m | m in ms && m.role == Tool && m.name.Some? ::
               exists c :: c in FlatMap(CallsOf, ms) && NonBlankId(c) && c.id == m.toolCallId && c.name == m.name
    ensures forall m | m in ms :: !Misnamed(m, BridgedCalls(ms, loads))
  {
    forall m | m in ms ensures !Misnamed(m, BridgedCalls(ms, loads)) {
      if m.role == Tool && m.name.Some? && Bridged(m.name) {
        var c :| c in FlatMap(CallsOf, ms) && NonBlankId(c) && c.id == m.toolCallId && c.name == m.name;
        assert BridgesCall(c);
        CollectedKeys(FlatMap(CallsOf, ms), loads, c.id.value);
      }
    }
  }

  predicate NonBlankId(c: ChatCall) {
    c.id.Some? && c.id.value != ""
  }

  predicate OnlyAt(tokens: seq<Token>, j: nat, id: Value) {
    j < |tokens| && tokens[j] == Replied(id) && forall k | 0 <= k < |tokens| && k != j :: tokens[k].id != id
  }

  /** Position by position: a call in a paired sequence has one reply, later, and its id occurs nowhere else. */
  lemma PairedPositions(a: seq<Token>, t: Token, b: seq<Token>)
    requires t.Asked? && Paired(a + [t] + b)
    ensures exists j: nat :: OnlyAt(b, j, t.id)
    ensures forall u | u in a :: u.id != t.id
  {
    PairedSplit(a, t, b);
    hide About, Paired;
    NoneAbout(a, t.id);
    AboutAt(b, t.id);
  }

  lemma PairedSplit(a: seq<Token>, t: Token, b: seq<Token>)
    requires t.Asked? && Paired(a + [t] + b)
    ensures About(a, t.id) == [] && About(b, t.id) == [Replied(t.id)]
  {
    hide FlatMap;
    AboutSplit(a, t, b, t.id);
    var all := About(a + [t] + b, t.id);
    assert all == [Asked(t.id), Replied(t.id)];
    assert all[|About(a, t.id)|] == Asked(t.id);
    assert |About(a, t.id)| == 0 && all[1..] == About(b, t.id);
  }

  lemma AboutSplit(a: seq<Token>, t: Token, b: seq<Token>, id: Value)
    requires t.id == id
    ensures About(a + [t] + b, id) == About(a, id) + [t] + About(b, id)
  {
    FlatMapOne(With(id), t);
    hide FlatMap;
    FlatMapAppend(With(id), a + [t], b);
    FlatMapAppend(With(id), a, [t]);
  }

  lemma {:induction false} NoneAbout(tokens: seq<Token>, id: Value)
    requires About(tokens, id) == []
    ensures forall t | t in tokens :: t.id != id
  {
    if tokens != [] {
      var n := |tokens| - 1;
      FlatMapSnoc(With(id), tokens);
      hide FlatMap;
      NoneAbout(tokens[..n], id);
      assert tokens == tokens[..n] + [tokens[n]];
    }
  }

  lemma {:induction false} AboutAt(tokens: seq<Token>, id: Value)
    requires About(tokens, id) == [Replied(id)]
    ensures exists j: nat :: OnlyAt(tokens, j, id)
  {
    var n := |tokens| - 1;
    FlatMapSnoc(With(id), tokens);
    hide FlatMap;
    var before := tokens[..n];
    if tokens[n].id == id {
      assert About(tokens, id)[|About(before, id)|] == tokens[n];
      assert About(before, id) == [];
      NoneAbout(before, id);
      assert forall k | 0 <= k < n :: tokens[k] == before[k] && before[k] in before;
      assert OnlyAt(tokens, n, id);
    } else {
      assert About(tokens, id) == About(before, id);
      AboutAt(before, id);
      var j: nat :| OnlyAt(before, j, id);
      assert forall k | 0 <= k < n :: tokens[k] == before[k];
      assert OnlyAt(tokens, j, id);
    }
  }

  // ----- the failing sides -----

  lemma {:induction false} AllTranslate(ms: seq<Message>)
    requires forall m | m in ms :: Translate(m).Ok?
    ensures TranslateAll(ms).Ok?
  {
    if ms != [] {
      assert ms[|ms| - 1] in ms;
      AllTranslate(ms[..|ms| - 1]);
    }
  }

  function TwoMessages(m: Message, n: Message): Request {
    Request(Auto, [], [m, n], [], None, None, 1, false, false, false, false, false, None)
  }

  /** A call of `c` and its reply, translated without error. */
  predicate CallThenReply(m: Message, n: Message) {
    && m.role == Assistant && !m.unsupported && m.name == None && Translate(m).Ok?
    && n.role == Tool && !n.unsupported && n.content == Null && n.toolCallId == Some("c") && n.toolCalls == []
    && MessageTokens(m) == [Asked(Str("c"))]
  }

  lemma PairOfTwo(m: Message, n: Message)
    requires CallThenReply(m, n)
    ensures AllTokens([m, n]) == [Asked(Str("c")), Replied(Str("c"))] && Paired(AllTokens([m, n]))
  {
    assert MessageTokens(n) == [Replied(Str("c"))];
    hide FlatMap, MessageTokens, Translate, Paired;
    assert [m, n] == [m] + [n];
    FlatMapAppend(MessageTokens, [m], [n]);
    FlatMapOne(MessageTokens, m);
    FlatMapOne(MessageTokens, n);
    OnePair(Str("c"));
  }

  lemma OnePair(c: Value)
    ensures Paired([Asked(c), Replied(c)])
  {
    hide FlatMap, About;
    assert [Asked(c), Replied(c)] == [Asked(c)] + [Replied(c)];
    forall id ensures About([Asked(c), Replied(c)], id) == if id == c then [Asked(c), Replied(c)] else [] {
      AboutConcat([Asked(c)], [Replied(c)], id);
      AboutOne(Asked(c), id);
      AboutOne(Replied(c), id);
    }
  }

  lemma AboutOne(t: Token, id: Value)
    ensures About([t], id) == if t.id == id then [t] else []
  {
    FlatMapOne(With(id), t);
  }

  lemma ForwardTwo(m: Message, n: Message, bridged: map<string, Prior>)
    ensures FlatMap(Forwards(bridged), [m, n]) == Forward(m, bridged) + Forward(n, bridged)
  {
    assert [m, n] == [m] + [n];
    FlatMapAppend(Forwards(bridged), [m], [n]);
    FlatMapOne(Forwards(bridged), m);
    FlatMapOne(Forwards(bridged), n);
  }

  lemma TwoPrepare(m: Message, n: Message, loads: Loads, svc: Service)
    requires CallThenReply(m, n) && forall c | c in m.toolCalls :: !c.unsupported
    requires forall k | k in Forward(m, BridgedCalls([m, n], loads)) :: Translate(k).Ok?
    ensures Prepare(TwoMessages(m, n), loads, svc).Ok?
  {
    var req, bridged := TwoMessages(m, n), BridgedCalls([m, n], loads);
    assert Compatible(req);
    ForwardTwo(m, n, bridged);
    forall k | k in FlatMap(Forwards(bridged), [m, n]) ensures Translate(k).Ok? {
      if k !in Forward(m, bridged) { assert k == n; }
    }
    hide FlatMap, TranslateAll, Prepare, BridgedCalls, Compatible, Forward, Translate;
    AllTranslate(FlatMap(Forwards(bridged), [m, n]));
    PreparedInput(req, loads, svc);
  }

  lemma OneCall(m: Message, n: Message, call: ChatCall, loads: Loads)
    requires m.role == Assistant && n.role == Tool && m.toolCalls == [call]
    ensures BridgedCalls([m, n], loads) ==
            if BridgesCall(call) then map[call.id.value := PriorOf(call, loads)] else map[]
  {
    assert [m, n] == [m] + [n];
    FlatMapAppend(CallsOf, [m], [n]);
    FlatMapOne(CallsOf, m);
    FlatMapOne(CallsOf, n);
    CollectedSnoc([], call, loads);
    assert [] + [call] == [call];
  }

  /** A kept call whose reply is dropped: prepared without complaint, and the call is left unanswered. */
  lemma LeftUnanswered(m: Message, n: Message, loads: Loads, svc: Service)
    requires CallThenReply(m, n) && forall c | c in m.toolCalls :: !c.unsupported
    requires forall k | k in Forward(m, BridgedCalls([m, n], loads)) :: Translate(k).Ok?
    requires !Drops(m, BridgedCalls([m, n], loads), Str("c")) && Drops(n, BridgedCalls([m, n], loads), Str("c"))
    ensures Unanswered(TwoMessages(m, n), loads, svc)
  {
    hide FlatMap, BridgedCalls, Prepare, MessageTokens, Drops, Paired, About, Conversation, DropsInPairs, AllTokens;
    hide Forward, Translate;
    TwoPrepare(m, n, loads, svc);
    ConversationOfTwo(m, n);
    DropsOne(m, n, BridgedCalls([m, n], loads));
    PairingSurvivesBridging(TwoMessages(m, n), loads, svc);
  }

  lemma ConversationOfTwo(m: Message, n: Message)
    requires CallThenReply(m, n)
    ensures Paired(AllTokens(Conversation(TwoMessages(m, n))))
  {
    var req := TwoMessages(m, n);
    PairOfTwo(m, n);
    FlatMapNone(ItemTokens);
    hide FlatMap, Paired, About, MessageTokens, Conversation;
    ConversationTokens(req, map[]);
    assert [] + AllTokens([m, n]) == AllTokens([m, n]);
  }

  lemma DropsOne(m: Message, n: Message, bridged: map<string, Prior>)
    requires CallThenReply(m, n) && !Drops(m, bridged, Str("c")) && Drops(n, bridged, Str("c"))
    ensures !DropsInPairs(Conversation(TwoMessages(m, n)), bridged)
  {
    hide FlatMap, Drops;
    var all := Conversation(TwoMessages(m, n));
    assert all[1] == m && all[2] == n;
    assert m in all && n in all;
    assert Asked(Str("c")) in MessageTokens(m) && Replied(Str("c")) in MessageTokens(n);
  }

  ghost predicate Unanswered(req: Request, loads: Loads, svc: Service) {
    && Paired(AllTokens(Conversation(req))) && Prepare(req, loads, svc).Ok?
    && !Paired(FlatMap(ItemTokens, Prepare(req, loads, svc).value.input))
  }

  const LOOKUP_CALL := ChatCall(Some("c"), Some("lookup"), None, false)

  const LOOKUP_ASKED := Message.Message(Assistant, Null, None, None, [LOOKUP_CALL], Null, [], false)

  const LOOKUP_MISNAMED := Message.Message(Tool, Null, Some("web_search"), Some("c"), [], Null, [], false)

  /** A reply that gives a bridged name to an ordinary call. */
  lemma MisnamedReplyBreaksPair(loads: Loads, svc: Service)
    ensures Unanswered(TwoMessages(LOOKUP_ASKED, LOOKUP_MISNAMED), loads, svc)
  {
    hide FlatMap, BridgedCalls, Unanswered, Forward, Keeps, Translate, Drops;
    var m, n := LOOKUP_ASKED, LOOKUP_MISNAMED;
    OneCall(m, n, LOOKUP_CALL, loads);
    LookupForwarded();
    FlatMapOne(CallToken, LOOKUP_CALL);
    LeftUnanswered(m, n, loads, svc);
  }

  lemma LookupForwarded()
    ensures Forward(LOOKUP_ASKED, map[]) == [LOOKUP_ASKED] && Translate(LOOKUP_ASKED).Ok?
    ensures !Drops(LOOKUP_ASKED, map[], Str("c")) && Drops(LOOKUP_MISNAMED, map[], Str("c"))
  {
    hide FlatMap;
    FlatMapOne(Keeps(map[]), LOOKUP_CALL);
  }

  const SEARCH_ITEM := Dict(map["type" := Str("function_call"), "call_id" := Str("c"), "name" := Str("web_search")])

  const SEARCH_REPLAYED :=
    Message.Message(Assistant, Str("Looking"), None, None, [SEARCH_CALL], Null, [SEARCH_ITEM], false)

  const SEARCH_ANSWERED := Message.Message(Tool, Null, None, Some("c"), [], Null, [], false)

  /**
   An assistant message that carries replay items beside a bridged call and some text: the items are replayed with their
   function_call, but the tool message is replaced.
   */
  lemma ReplayedCallLosesAnswer(loads: Loads, svc: Service)
    ensures Unanswered(TwoMessages(SEARCH_REPLAYED, SEARCH_ANSWERED), loads, svc)
  {
    var m, n, bridged := SEARCH_REPLAYED, SEARCH_ANSWERED, map["c" := PriorOf(SEARCH_CALL, loads)];
    OneCall(m, n, SEARCH_CALL, loads);
    SearchForwarded(bridged);
    FlatMapOne(ItemTokens, SEARCH_ITEM);
    hide FlatMap, BridgedCalls, Unanswered, Forward, Translate, Swallowed;
    LeftUnanswered(m, n, loads, svc);
  }

  lemma SearchForwarded(bridged: map<string, Prior>)
    ensures !Swallowed(SEARCH_REPLAYED, bridged)
    ensures Translate(SEARCH_REPLAYED).Ok? && forall k | k in Forward(SEARCH_REPLAYED, bridged) :: Translate(k).Ok?
  {
  }
}
