/** Exactly when a folding client recovers what the events mean. */
module ReassemblyExact {
  import opened Wrappers
  import opened Values
  import opened Strings
  import opened StreamMapper
  import opened StreamGrammar
  import opened StreamReassembly
  import opened StreamMeaning
  import CallIndexes

  // ----- a call added again, or after its arguments -----

  predicate RepeatsCall(before: seq<Event>, e: Event) {
    AddsCall(e) && Text(Subject(before, e).id) in Mentions(before)
  }

  /** Every call spoken of is held, under an id at least as long as its own. */
  ghost predicate Covers(calls: map<nat, ClientCall>, ids: seq<string>) {
    forall i | 0 <= i < |ids| :: i in calls && |calls[i].id| >= |ids[i]|
  }

  /** Some call is held under an id longer than its own. */
  ghost predicate Exceeds(calls: map<nat, ClientCall>, ids: seq<string>) {
    exists i :: 0 <= i < |ids| && i in calls && |calls[i].id| > |ids[i]|
  }

  lemma MergeCovers(calls: map<nat, ClientCall>, ids: seq<string>, c: Chunk, id: string)
    requires Covers(calls, ids) && c.ToolCallChunk? && id != ""
    requires if id in ids then c.index < |ids| && ids[c.index] == id
             else c.index == |ids| && c.announcement.Some? && c.announcement.value.id == Some(id)
    ensures var calls', ids' := calls[c.index := Merged(calls, c)], if id in ids then ids else ids + [id];
            && Covers(calls', ids')
            && (Exceeds(calls, ids) ==> Exceeds(calls', ids'))
            && (id in ids && c.announcement.Some? && c.announcement.value.id == Some(id) ==> Exceeds(calls', ids'))
  {
    var calls', ids' := calls[c.index := Merged(calls, c)], if id in ids then ids else ids + [id];
    if Exceeds(calls, ids) {
      var i :| 0 <= i < |ids| && i in calls && |calls[i].id| > |ids[i]|;
      assert ids'[i] == ids[i] && i in calls' && |calls'[i].id| >= |calls[i].id|;
    }
    if id in ids && c.announcement.Some? && c.announcement.value.id == Some(id) {
      assert |calls'[c.index].id| > |ids'[c.index]|;
    }
  }

  lemma CallCovers(before: seq<Event>, e: Event, m: map<string, nat>, calls: map<nat, ClientCall>, c: Chunk)
    requires IndexesFollow(m, Mentions(before)) && ChunkFor(before, e, m, c) && Covers(calls, Mentions(before))
    ensures var calls', ids := calls[c.index := Merged(calls, c)], Mentions(before + [e]);
            && Covers(calls', ids)
            && (Exceeds(calls, Mentions(before)) || RepeatsCall(before, e) ==> Exceeds(calls', ids))
  {
    var id := Subject(before, e).id.value;
    MentionsStep(before, e, id);
    MentionIndexed(m, Mentions(before), id);
    assert id !in Mentions(before) ==> IndexOf(m, Some(id)) == |Mentions(before)|;
    hide Mentions, Covers, Exceeds, Merged, IndexesFollow, Subject;
    MergeCovers(calls, Mentions(before), c, id);
  }

  lemma StepCovers(cfg: Config, s: State, before: seq<Event>, out: seq<Chunk>, e: Event)
    requires !s.returned && !Terminal(e) && Follows(s, before) && Covers(Fold(out).calls, Mentions(before))
    requires SpeaksOfCall(e) ==> NonEmpty(Subject(before, e).id)
    ensures var calls, ids := Fold(out + Step(cfg, s, e).1).calls, Mentions(before + [e]);
            && Covers(calls, ids)
            && (Exceeds(Fold(out).calls, Mentions(before)) || RepeatsCall(before, e) ==> Exceeds(calls, ids))
  {
    hide Handle, Step, Mentions, Fold, Covers, Exceeds, LatestItem, IndexOf;
    StepChunks(cfg, s, out, e);
    if SpeaksOfCall(e) {
      StepChunkFor(cfg, s, before, e);
      CallCovers(before, e, s.callIndexes, Fold(out).calls, Handle(cfg, s.(sentRole := true), e).1[0]);
    } else {
      CallsUnchanged(before, e);
      OthersSilent(cfg, s.(sentRole := true), e);
    }
  }

  lemma OthersSilent(cfg: Config, s: State, e: Event)
    requires !Terminal(e) && !SpeaksOfCall(e)
    ensures forall c | c in Handle(cfg, s, e).1 :: !c.ToolCallChunk?
    ensures Handle(cfg, s, e).0.callIndexes == s.callIndexes
  {
  }

  lemma {:induction false} LiveCovers(cfg: Config, es: seq<Event>)
    requires Live(es) == es && IdsGiven(es)
    ensures var calls := Fold(Output(cfg, es)).calls;
            Covers(calls, Mentions(es)) && (!AddedFirst(es) ==> Exceeds(calls, Mentions(es)))
  {
    if es != [] {
      var before, e := es[..|es| - 1], es[|es| - 1];
      assert before + [e] == es && e in es;
      LiveInit(es);
      LiveCovers(cfg, before);
      TablesFollow(cfg, before);
      StepCovers(cfg, Reached(cfg, before), before, Output(cfg, before), e);
      RunSnoc(cfg, before, e);
      hide Run, Step, Mentions, Fold, Covers, Exceeds, Follows, Live;
    }
  }

  lemma ExceedsIsWrong(calls: map<nat, ClientCall>, es: seq<Event>)
    requires Exceeds(calls, Calls(es, |es|))
    ensures !Match(calls, Calls(es, |es|), CallMeant(es))
  {
    hide Calls;
    var i :| 0 <= i < |Calls(es, |es|)| && i in calls && |calls[i].id| > |Calls(es, |es|)[i]|;
    assert CallMeant(es)(Calls(es, |es|)[i]).id == Calls(es, |es|)[i];
  }

  // ----- calls without an id -----

  /** The key `call_index` makes up for the n-th call. */
  function Placeholder(n: nat): string {
    "unknown-" + Decimal(n)
  }

  /** No given id looks like a made-up key. */
  ghost predicate Unreserved(es: seq<Event>) {
    es == [] ||
    var before, e := es[..|es| - 1], es[|es| - 1];
    && Unreserved(before)
    && (SpeaksOfCall(e) && NonEmpty(Subject(before, e).id) ==>
          forall n: nat :: Subject(before, e).id.value != Placeholder(n))
  }

  /** The events that speak of a call without an id. */
  function Nameless(es: seq<Event>): nat {
    if es == [] then 0
    else
      var before, e := es[..|es| - 1], es[|es| - 1];
      Nameless(before) + if SpeaksOfCall(e) && !NonEmpty(Subject(before, e).id) then 1 else 0
  }

  lemma {:induction false} NamelessZero(es: seq<Event>)
    ensures Nameless(es) == 0 <==> IdsGiven(es)
  {
    if es != [] {
      NamelessZero(es[..|es| - 1]);
    }
  }

  lemma PlaceholderInjective(m: nat, n: nat)
    requires Placeholder(m) == Placeholder(n)
    ensures m == n
  {
    assert Placeholder(m)[8..] == Decimal(m) && Placeholder(n)[8..] == Decimal(n);
    DecimalInjective(m, n);
  }

  lemma {:induction false} MentionsUnreserved(es: seq<Event>, id: string, n: nat)
    requires Unreserved(es) && id in Mentions(es)
    ensures id != Placeholder(n)
  {
    var before := es[..|es| - 1];
    if id in Mentions(before) {
      MentionsUnreserved(before, id, n);
    }
  }

  ghost predicate MadeUp(k: string, bound: nat) {
    exists j: nat :: j < bound && k == Placeholder(j)
  }

  /** The index table holds the ids spoken of and `extra` made-up keys. */
  ghost predicate Files(m: map<string, nat>, ids: seq<string>, extra: nat) {
    && |m| == |ids| + extra
    && (forall id | id in ids :: id in m)
    && (forall k | k in m :: k in ids || MadeUp(k, |m|))
  }

  lemma GrowTable(m: map<string, nat>, key: string)
    requires key !in m
    ensures |m[key := |m|]| == |m| + 1
  {
    assert m[key := |m|].Keys == m.Keys + {key};
    assert |m[key := |m|]| == |m[key := |m|].Keys| && |m| == |m.Keys|;
  }

  lemma FileNamed(m: map<string, nat>, ids: seq<string>, extra: nat, id: string)
    requires Files(m, ids, extra) && id != "" && forall n: nat :: id != Placeholder(n)
    ensures Files(WithCall(m, Some(id)), if id in ids then ids else ids + [id], extra)
  {
    if id !in ids {
      assert id !in m;
      GrowTable(m, id);
      StillMadeUp(m, WithCall(m, Some(id)), ids, ids + [id]);
    }
  }

  lemma StillMadeUp(m: map<string, nat>, m': map<string, nat>, ids: seq<string>, ids': seq<string>)
    requires |m| <= |m'| && ids <= ids' && forall k | k in m :: k in ids || MadeUp(k, |m|)
    ensures forall k | k in m :: k in ids' || MadeUp(k, |m'|)
  {
    forall k | k in m ensures k in ids' || MadeUp(k, |m'|) {
      if k !in ids {
        var j: nat :| j < |m| && k == Placeholder(j);
      }
    }
  }

  lemma FileNameless(m: map<string, nat>, ids: seq<string>, extra: nat, id: Option<string>)
    requires Files(m, ids, extra) && !NonEmpty(id) && forall n: nat, i | 0 <= i < |ids| :: ids[i] != Placeholder(n)
    ensures Files(WithCall(m, id), ids, extra + 1)
  {
    var key := Placeholder(|m|);
    if key in m {
      assert key !in ids;
      var j: nat :| j < |m| && key == Placeholder(j);
      PlaceholderInjective(|m|, j);
    }
    GrowTable(m, key);
    StillMadeUp(m, WithCall(m, id), ids, ids);
    assert MadeUp(key, |m| + 1);
  }

  lemma StepFiles(cfg: Config, s: State, before: seq<Event>, e: Event)
    requires !s.returned && !Terminal(e) && ItemsFollow(s, before) && Unreserved(before + [e])
    requires Files(s.callIndexes, Mentions(before), Nameless(before))
    ensures Files(Step(cfg, s, e).0.callIndexes, Mentions(before + [e]), Nameless(before + [e]))
  {
    var es := before + [e];
    assert es[..|es| - 1] == before;
    StepFollowsItems(cfg, s, before, e);
    StepTables(cfg, s, before, e);
    hide Step, Handle, Files, ItemsFollow, WithCall, LatestItem;
    if !SpeaksOfCall(e) {
      CallsUnchanged(before, e);
    } else if NonEmpty(Subject(before, e).id) {
      MentionsStep(before, e, Subject(before, e).id.value);
      FileNamed(s.callIndexes, Mentions(before), Nameless(before), Subject(before, e).id.value);
    } else {
      forall n: nat, i | 0 <= i < |Mentions(before)| ensures Mentions(before)[i] != Placeholder(n) {
        MentionsUnreserved(before, Mentions(before)[i], n);
      }
      assert Mentions(es) == Mentions(before);
      FileNameless(s.callIndexes, Mentions(before), Nameless(before), Subject(before, e).id);
    }
  }

  lemma {:induction false} TableFiles(cfg: Config, es: seq<Event>)
    requires Live(es) == es && Unreserved(es)
    ensures var s := Reached(cfg, es);
            !s.returned && ItemsFollow(s, es) && Files(s.callIndexes, Mentions(es), Nameless(es))
  {
    OutputGrammar(cfg, es);
    if es != [] {
      var before, e := es[..|es| - 1], es[|es| - 1];
      assert before + [e] == es && e in es;
      LiveInit(es);
      TableFiles(cfg, before);
      StepFiles(cfg, Reached(cfg, before), before, e);
      StepFollowsItems(cfg, Reached(cfg, before), before, e);
      RunSnoc(cfg, before, e);
      hide Step, Files, ItemsFollow, Mentions, Nameless, Live;
    }
  }

  /** The client holds one call for each index below `n`, and no other. */
  ghost predicate HoldsBelow(calls: map<nat, ClientCall>, n: nat) {
    forall i: nat :: i in calls <==> i < n
  }

  lemma StepHolds(cfg: Config, s: State, out: seq<Chunk>, e: Event)
    requires !s.returned && !Terminal(e) && CallIndexes.Dense(s.callIndexes)
    requires HoldsBelow(Fold(out).calls, |s.callIndexes|)
    ensures HoldsBelow(Fold(out + Step(cfg, s, e).1).calls, |Step(cfg, s, e).0.callIndexes|)
  {
    hide Step, Fold, HoldsBelow, Handle, CallIndexes.Dense, IndexOf, WithCall, Merged;
    StepChunks(cfg, s, out, e);
    StepIsHandle(cfg, s, e);
    if SpeaksOfCall(e) {
      var callId := if AddsCall(e) then AnnouncementOf(e.item).id else CallOf(s.functionItems, e);
      TableGrows(s.callIndexes, callId);
      SpokenChunk(cfg, s.(sentRole := true), e, callId);
      hide AnnouncementOf, CallOf;
      MergeHolds(Fold(out).calls, |s.callIndexes|, Handle(cfg, s.(sentRole := true), e).1[0],
                 |WithCall(s.callIndexes, callId)|);
    } else {
      OthersSilent(cfg, s.(sentRole := true), e);
    }
  }

  lemma MergeHolds(calls: map<nat, ClientCall>, n: nat, c: Chunk, n': nat)
    requires HoldsBelow(calls, n) && c.ToolCallChunk?
    requires (c.index < n && n' == n) || (c.index == n && n' == n + 1)
    ensures HoldsBelow(calls[c.index := Merged(calls, c)], n')
  {
  }

  lemma SpokenChunk(cfg: Config, s: State, e: Event, callId: Option<string>)
    requires SpeaksOfCall(e)
    requires callId == if AddsCall(e) then AnnouncementOf(e.item).id else CallOf(s.functionItems, e)
    ensures var (s', body) := Handle(cfg, s, e);
            && s'.callIndexes == WithCall(s.callIndexes, callId)
            && |body| == 1 && body[0].ToolCallChunk? && body[0].index == IndexOf(s.callIndexes, callId)
  {
  }

  lemma TableGrows(m: map<string, nat>, callId: Option<string>)
    requires CallIndexes.Dense(m)
    ensures var i, n := IndexOf(m, callId), |WithCall(m, callId)|;
            (i < |m| && n == |m|) || (i == |m| && n == |m| + 1)
  {
    var key := CallKey(callId, |m|);
    if key !in m {
      GrowTable(m, key);
    }
  }

  lemma {:induction false} LiveHoldsIndexes(cfg: Config, es: seq<Event>)
    requires Live(es) == es
    ensures HoldsBelow(Fold(Output(cfg, es)).calls, |Reached(cfg, es).callIndexes|)
  {
    OutputGrammar(cfg, es);
    if es != [] {
      var before, e := es[..|es| - 1], es[|es| - 1];
      assert before + [e] == es && e in es;
      LiveInit(es);
      LiveHoldsIndexes(cfg, before);
      OutputGrammar(cfg, before);
      hide HoldsBelow, CallIndexes.Dense, Step, Fold, Live;
      CallIndexes.AlwaysDense(cfg, before);
      StepHolds(cfg, Reached(cfg, before), Output(cfg, before), e);
      RunSnoc(cfg, before, e);
    }
  }

  // ----- the theorems -----

  lemma FoldOfLive(cfg: Config, es: seq<Event>)
    ensures Fold(Output(cfg, es)) == Fold(Output(cfg, Live(es))) && Live(Live(es)) == Live(es)
  {
    var closing := LiveThenClosing(cfg, es);
    InvisibleTail(Output(cfg, Live(es)), closing);
  }

  /**
   The client holds one call for each id spoken of and one more for each event that spoke of a call without an id:
   no such event ever joins a call that the client knows.
   */
  lemma NamelessEventsAddCalls(cfg: Config, es: seq<Event>)
    requires Unreserved(Live(es))
    ensures HoldsBelow(Fold(Output(cfg, es)).calls, |Mentions(Live(es))| + Nameless(Live(es)))
  {
    FoldOfLive(cfg, es);
    hide Live, Unreserved, Fold, Mentions, Nameless, HoldsBelow;
    ClientHoldsIndexes(cfg, Live(es));
    TableFiles(cfg, Live(es));
  }

  /** Whatever the ids, and whether or not the stream has ended, the client holds exactly the calls with an index. */
  lemma ClientHoldsIndexes(cfg: Config, es: seq<Event>)
    ensures HoldsBelow(Fold(Output(cfg, es)).calls, |Reached(cfg, Live(es)).callIndexes|)
  {
    FoldOfLive(cfg, es);
    LiveHoldsIndexes(cfg, Live(es));
  }

  lemma HeardCounts(cfg: Config, es: seq<Event>)
    requires Live(es) == es && IdsGiven(es)
    ensures HoldsBelow(Fold(Output(cfg, es)).calls, |Mentions(es)|)
  {
    LiveHoldsIndexes(cfg, es);
    TablesFollow(cfg, es);
    hide HoldsBelow, Fold, Output, Mentions, IdsGiven, Live;
  }

  lemma SameCount(calls: map<nat, ClientCall>, n: nat, es: seq<Event>)
    requires HoldsBelow(calls, n) && Match(calls, Calls(es, |es|), CallMeant(es))
    ensures |Calls(es, |es|)| == n
  {
    hide Calls;
    assert n in calls <==> n < n;
    assert |Calls(es, |es|)| in calls <==> |Calls(es, |es|)| < |Calls(es, |es|)|;
  }

  /** Of what was heard, only names can differ from what was meant once no item comes late. */
  lemma NamesDecide(cl: Client, es: seq<Event>)
    requires IdsGiven(es) && ItemsFirst(es) && AsHeard(cl, es)
    ensures Recovers(cl, es) <==> NamedFirst(es)
  {
    assert es[..|es|] == es;
    CallsAsHeard(es, |es|);
    forall i | 0 <= i < |Mentions(es)|
      ensures cl.calls[i] == CallMeant(es)(Mentions(es)[i]) <==>
              (FirstName(es, Mentions(es)[i]) == "" ==> NameOf(es, |es|, Mentions(es)[i]) == "")
    {
      var id := Mentions(es)[i];
      MentionGiven(es, id);
      ArgumentsAsHeard(es, |es|, id);
      NameAsHeard(es, |es|, id);
      assert cl.calls[i] == Spoken(es)(id);
    }
    hide Calls, Mentions, NameOf, FirstName, ItemsFirst, IdsGiven;
    if Recovers(cl, es) {
      forall id | id in Mentions(es) ensures FirstName(es, id) == "" ==> NameOf(es, |es|, id) == "" {
        var i :| 0 <= i < |Mentions(es)| && Mentions(es)[i] == id;
      }
    }
  }

  lemma {:induction false} MentionGiven(es: seq<Event>, id: string)
    requires id in Mentions(es)
    ensures id != ""
  {
    if id in Mentions(es[..|es| - 1]) {
      MentionGiven(es[..|es| - 1], id);
    }
  }

  /** With ids given and kept apart from item ids. */
  lemma RecoversIff(cfg: Config, es: seq<Event>)
    requires Live(es) == es && IdsGiven(es)
    ensures var cl := Fold(Output(cfg, es));
            && (AddedFirst(es) && ItemsFirst(es) && NamedFirst(es) ==> Recovers(cl, es))
            && (ItemIdsApart(es) && Recovers(cl, es) ==> AddedFirst(es) && ItemsFirst(es) && NamedFirst(es))
  {
    var cl := Fold(Output(cfg, es));
    if ItemsFirst(es) {
      if AddedFirst(es) {
        LiveReassembly(cfg, es);
        NamesDecide(cl, es);
      } else {
        LiveCovers(cfg, es);
        assert es[..|es|] == es;
        CallsAsHeard(es, |es|);
        ExceedsIsWrong(cl.calls, es);
      }
    } else if ItemIdsApart(es) && Recovers(cl, es) {
      HeardCounts(cfg, es);
      LateItemHeard(es);
      hide Calls, Mentions, HoldsBelow, Match, ItemsFirst, ItemIdsApart;
      SameCount(cl.calls, |Mentions(es)|, es);
    }
  }

  lemma RecoveredIdsGiven(cfg: Config, es: seq<Event>)
    requires Live(es) == es && Unreserved(es) && Recovers(Fold(Output(cfg, es)), es)
    ensures IdsGiven(es)
  {
    hide Live, Calls, Mentions, HoldsBelow, Match, IdsGiven, Nameless, Fold, Output, Unreserved, CallMeant;
    NamelessEventsAddCalls(cfg, es);
    NamelessZero(es);
    FewerMeant(es);
    SameCount(Fold(Output(cfg, es)).calls, |Mentions(es)| + Nameless(es), es);
  }

  /**
   Folding everything the mapper emits gives back, under any interleaving, each call's id, its name, its argument deltas
   in order, and the content and refusal texts, all read from the events as a whole. It does so when every call has an
   id, is added at most once and before anything else is said of it, no item is added after a delta that had to name its
   call by the item's id, and each name is there from the first mention; and if item ids are kept apart from call ids
   and no given id looks like a made-up key, only then.
   */
  lemma Reassembly(cfg: Config, es: seq<Event>)
    ensures var live, cl := Live(es), Fold(Output(cfg, es));
            var inOrder := AddedFirst(live) && ItemsFirst(live) && NamedFirst(live);
            && (IdsGiven(live) && inOrder ==> Recovers(cl, live))
            && (IdsGiven(live) && ItemIdsApart(live) ==> (Recovers(cl, live) <==> inOrder))
            && (Unreserved(live) && ItemIdsApart(live) ==> (Recovers(cl, live) <==> IdsGiven(live) && inOrder))
  {
    var live, cl := Live(es), Fold(Output(cfg, es));
    FoldOfLive(cfg, es);
    hide Live, Fold, Output, Recovers, IdsGiven, AddedFirst, ItemsFirst, NamedFirst, ItemIdsApart, Unreserved;
    if IdsGiven(live) {
      RecoversIff(cfg, live);
    } else if Unreserved(live) && Recovers(cl, live) {
      RecoveredIdsGiven(cfg, live);
    }
  }

  // ----- the failing sides -----

  /** One more event, which emits one chunk. */
  lemma EventChunk(cfg: Config, es: seq<Event>, e: Event, s: State, c: Chunk)
    requires !Reached(cfg, es).returned && !Terminal(e)
    requires Handle(cfg, Reached(cfg, es).(sentRole := true), e) == (s, [c])
    ensures Reached(cfg, es + [e]) == s && Fold(Output(cfg, es + [e])) == Receive(Fold(Output(cfg, es)), c)
  {
    StepIsHandle(cfg, Reached(cfg, es), e);
    RunSnoc(cfg, es, e);
    hide Step, Handle, Receive;
    StepChunks(cfg, Reached(cfg, es), Output(cfg, es), e);
  }

  /** State and client before the first event. */
  lemma NoEvents(cfg: Config)
    ensures Reached(cfg, []) == INITIAL && Fold(Output(cfg, [])) == Client("", "", map[])
  {
  }

  const SENT := INITIAL.(sentRole := true)

  /** The client after two events that emit one chunk each. */
  lemma TwoChunks(cfg: Config, e0: Event, e1: Event, c0: Chunk, c1: Chunk)
    requires !Terminal(e0) && !Terminal(e1) && Handle(cfg, SENT, e0).1 == [c0]
    requires var s := Handle(cfg, SENT, e0).0; s.sentRole && !s.returned && Handle(cfg, s, e1).1 == [c1]
    ensures Fold(Output(cfg, [e0, e1])) == Receive(Receive(Client("", "", map[]), c0), c1)
    ensures Reached(cfg, [e0, e1]) == Handle(cfg, Handle(cfg, SENT, e0).0, e1).0
  {
    hide Handle, Fold, Receive, Output, Reached;
    var s := Handle(cfg, SENT, e0).0;
    NoEvents(cfg);
    assert s.(sentRole := true) == s;
    assert [] + [e0] == [e0] && [e0] + [e1] == [e0, e1];
    EventChunk(cfg, [], e0, s, c0);
    EventChunk(cfg, [e0], e1, Handle(cfg, s, e1).0, c1);
  }

  function FunctionCallItem(itemId: string, id: Option<string>, name: Option<string>): Value {
    Object(map["type" := Str("function_call"), "id" := Str(itemId)]
           + (if id.Some? then map["call_id" := Str(id.value)] else map[])
           + (if name.Some? then map["name" := Str(name.value)] else map[]))
  }

  lemma ItemRead(itemId: string, id: Option<string>, name: Option<string>)
    ensures var item := FunctionCallItem(itemId, id, name);
            && AddsCall(ItemAdded(item)) && AnnouncementOf(item) == Announcement(id, name)
            && AsString(Attr(item, "id")) == Some(itemId)
  {
  }

  /** An added call is announced under the next index. */
  lemma AddHandled(cfg: Config, s: State, itemId: string, id: Option<string>, name: Option<string>)
    requires itemId != ""
    ensures var a := Announcement(id, name);
            var (s', chunks) := Handle(cfg, s, ItemAdded(FunctionCallItem(itemId, id, name)));
            && chunks == [ToolCallChunk(IndexOf(s.callIndexes, id), Some(a), Some(""))]
            && s' == s.(functionItems := s.functionItems[itemId := a], callIndexes := WithCall(s.callIndexes, id),
                        announced := s.announced + {id})
  {
    ItemRead(itemId, id, name);
    hide FunctionCallItem, AnnouncementOf, WithCall, IndexOf;
  }

  lemma EmptyAdds(s: string)
    ensures "" + s == s && s + "" == s
  {
  }

  /** What a client makes of two chunks for different calls. */
  lemma TwoCalls(a: Announcement, x: string, b: Announcement, y: string)
    ensures var c0, c1 := ToolCallChunk(0, Some(a), Some(x)), ToolCallChunk(1, Some(b), Some(y));
            Receive(Receive(Client("", "", map[]), c0), c1) ==
            Client("", "", map[0 := ClientCall(Text(a.id), Text(a.name), x),
                               1 := ClientCall(Text(b.id), Text(b.name), y)])
  {
    EmptyAdds(Text(a.id));
    EmptyAdds(Text(a.name));
    EmptyAdds(x);
    EmptyAdds(Text(b.id));
    EmptyAdds(Text(b.name));
    EmptyAdds(y);
  }

  /** What a client makes of two chunks for the same call, both announcing it. */
  lemma SameCall(a: Announcement, x: string, b: Announcement, y: string)
    ensures var c0, c1 := ToolCallChunk(0, Some(a), Some(x)), ToolCallChunk(0, Some(b), Some(y));
            Receive(Receive(Client("", "", map[]), c0), c1) ==
            Client("", "", map[0 := ClientCall(Text(a.id) + Text(b.id), Text(a.name) + Text(b.name), x + y)])
  {
    EmptyAdds(Text(a.id));
    EmptyAdds(Text(a.name));
    EmptyAdds(x);
  }

  /** A further chunk of a call that announces nothing. */
  lemma MoreArguments(a: Announcement, x: string, y: string)
    ensures var c0, c1 := ToolCallChunk(0, Some(a), Some(x)), ToolCallChunk(0, None, Some(y));
            Receive(Receive(Client("", "", map[]), c0), c1) ==
            Client("", "", map[0 := ClientCall(Text(a.id), Text(a.name), x + y)])
  {
    EmptyAdds(Text(a.id));
    EmptyAdds(Text(a.name));
    EmptyAdds(x);
  }

  // ----- a call without an id -----

  /**
   A call added without a call id is announced under one index, and its arguments, resolved to the item id,
   arrive under another: the client sees two calls where the events tell of one item.
   */
  lemma MissingCallIdSplitsCall(cfg: Config, itemId: string, name: string, delta: string)
    requires itemId != "" && itemId != Placeholder(0)
    ensures var es := [ItemAdded(FunctionCallItem(itemId, None, Some(name))),
                       ArgumentsDelta(Some(itemId), None, None, Some(delta))];
            && !IdsGiven(es)
            && Fold(Output(cfg, es)).calls == map[0 := ClientCall("", name, ""), 1 := ClientCall(itemId, name, delta)]
  {
    var e0 := ItemAdded(FunctionCallItem(itemId, None, Some(name)));
    var e1 := ArgumentsDelta(Some(itemId), None, None, Some(delta));
    var a, b := Announcement(None, Some(name)), Announcement(Some(itemId), Some(name));
    ItemRead(itemId, None, Some(name));
    AddHandled(cfg, SENT, itemId, None, Some(name));
    NamelessArguments(cfg, Handle(cfg, SENT, e0).0, itemId, name, delta);
    NoIdGiven(e0, e1);
    hide Handle, IdsGiven, Fold, Output, FunctionCallItem;
    TwoChunks(cfg, e0, e1, ToolCallChunk(0, Some(a), Some("")), ToolCallChunk(1, Some(b), Some(delta)));
    TwoCalls(a, "", b, delta);
    hide Receive;
  }

  lemma NamelessArguments(cfg: Config, s: State, itemId: string, name: string, delta: string)
    requires itemId != "" && itemId != Placeholder(0)
    requires s == SENT.(functionItems := map[itemId := Announcement(None, Some(name))],
                        callIndexes := map[Placeholder(0) := 0], announced := {None})
    ensures Handle(cfg, s, ArgumentsDelta(Some(itemId), None, None, Some(delta))).1 ==
            [ToolCallChunk(1, Some(Announcement(Some(itemId), Some(name))), Some(delta))]
  {
    hide Placeholder, Decimal;
  }

  lemma NoIdGiven(e0: Event, e1: Event)
    requires AddsCall(e0) && AnnouncementOf(e0.item).id == None
    ensures !IdsGiven([e0, e1])
  {
    assert [e0, e1][..1] == [e0] && [e0][..0] == [];
    assert !IdsGiven([e0]);
  }

  // ----- a call added after its arguments -----

  /** When the arguments carry the call id: the client reads the id and the name twice over. */
  lemma LateAddDoublesId(cfg: Config, itemId: string, id: string, name: string, delta: string)
    requires itemId != "" && id != "" && name != ""
    ensures var es := [ArgumentsDelta(None, Some(id), Some(name), Some(delta)),
                       ItemAdded(FunctionCallItem(itemId, Some(id), Some(name)))];
            && IdsGiven(es) && !AddedFirst(es)
            && Fold(Output(cfg, es)).calls == map[0 := ClientCall(id + id, name + name, delta)]
  {
    var e0 := ArgumentsDelta(None, Some(id), Some(name), Some(delta));
    var e1 := ItemAdded(FunctionCallItem(itemId, Some(id), Some(name)));
    var a, s := Announcement(Some(id), Some(name)), Handle(cfg, SENT, e0).0;
    ItemRead(itemId, Some(id), Some(name));
    assert s.callIndexes == map[id := 0] && Handle(cfg, SENT, e0).1 == [ToolCallChunk(0, Some(a), Some(delta))];
    AddHandled(cfg, s, itemId, Some(id), Some(name));
    DeltaThenAdd(e0, e1, id);
    hide Handle, IdsGiven, AddedFirst, Fold, Output, FunctionCallItem;
    TwoChunks(cfg, e0, e1, ToolCallChunk(0, Some(a), Some(delta)), ToolCallChunk(0, Some(a), Some("")));
    SameCall(a, delta, a, "");
    EmptyAdds(delta);
    hide Receive;
  }

  /** What is heard of a delta and an added call, when the first names the call `heard`. */
  lemma DeltaThenAdd(e0: Event, e1: Event, heard: string)
    requires e0.ArgumentsDelta? && heard != "" && Subject([], e0).id == Some(heard)
    requires AddsCall(e1) && NonEmpty(AnnouncementOf(e1.item).id)
    ensures IdsGiven([e0, e1]) && (AddedFirst([e0, e1]) <==> AnnouncementOf(e1.item).id != Some(heard))
  {
    assert [e0, e1][..1] == [e0];
    OneHeard(e0, heard);
  }

  lemma OneHeard(e: Event, id: string)
    requires SpeaksOfCall(e) && id != "" && Subject([], e).id == Some(id)
    ensures IdsGiven([e]) && AddedFirst([e]) && Mentions([e]) == [id]
    ensures FirstName([e], id) == Text(Subject([], e).name)
  {
    hide Subject, SpeaksOfCall;
    assert [e][..0] == [];
    assert Mentions([]) == [] && IdsGiven([]) && AddedFirst([]);
  }

  /** When they carry the item's id alone: the client sees two calls where the events tell of one. */
  lemma EarlyArgumentsSplitCall(cfg: Config, itemId: string, id: string, name: string, delta: string)
    requires itemId != "" && id != "" && itemId != id
    ensures var es := [ArgumentsDelta(Some(itemId), None, None, Some(delta)),
                       ItemAdded(FunctionCallItem(itemId, Some(id), Some(name)))];
            && IdsGiven(es) && AddedFirst(es) && !ItemsFirst(es)
            && Fold(Output(cfg, es)).calls == map[0 := ClientCall(itemId, "", delta), 1 := ClientCall(id, name, "")]
  {
    var e0 := ArgumentsDelta(Some(itemId), None, None, Some(delta));
    var e1 := ItemAdded(FunctionCallItem(itemId, Some(id), Some(name)));
    var a, b, s := Announcement(Some(itemId), None), Announcement(Some(id), Some(name)), Handle(cfg, SENT, e0).0;
    ItemRead(itemId, Some(id), Some(name));
    assert s.callIndexes == map[itemId := 0] && Handle(cfg, SENT, e0).1 == [ToolCallChunk(0, Some(a), Some(delta))];
    AddHandled(cfg, s, itemId, Some(id), Some(name));
    DeltaThenAdd(e0, e1, itemId);
    ItemComesLate(e0, e1);
    hide Handle, IdsGiven, AddedFirst, ItemsFirst, Fold, Output, FunctionCallItem;
    TwoChunks(cfg, e0, e1, ToolCallChunk(0, Some(a), Some(delta)), ToolCallChunk(1, Some(b), Some("")));
    TwoCalls(a, delta, b, "");
    hide Receive;
  }

  lemma ItemComesLate(e0: Event, e1: Event)
    requires e0.ArgumentsDelta? && !NonEmpty(e0.callId) && AddsItem(e1, e0.itemId)
    ensures !ItemsFirst([e0, e1])
  {
    var es := [e0, e1];
    assert e1 in es && es[..0] == [];
    assert !ItemInTime(es, 0);
  }

  // ----- a name that comes late -----

  /** A name given after the call's first mention never reaches the client. */
  lemma LateNameIsLost(cfg: Config, id: string, name: string, x: string, y: string)
    requires id != "" && name != ""
    ensures var es := [ArgumentsDelta(None, Some(id), None, Some(x)),
                       ArgumentsDelta(None, Some(id), Some(name), Some(y))];
            && IdsGiven(es) && AddedFirst(es) && ItemsFirst(es) && !NamedFirst(es)
            && Fold(Output(cfg, es)).calls == map[0 := ClientCall(id, "", x + y)]
  {
    var e0, e1 := ArgumentsDelta(None, Some(id), None, Some(x)), ArgumentsDelta(None, Some(id), Some(name), Some(y));
    var a, s := Announcement(Some(id), None), Handle(cfg, SENT, e0).0;
    NamelessDeltas(cfg, id, name, x, y);
    NameComesLate(e0, e1, id, name);
    hide Handle, IdsGiven, AddedFirst, ItemsFirst, NamedFirst, Fold, Output;
    TwoChunks(cfg, e0, e1, ToolCallChunk(0, Some(a), Some(x)), ToolCallChunk(0, None, Some(y)));
    MoreArguments(a, x, y);
    hide Receive;
  }

  lemma NamelessDeltas(cfg: Config, id: string, name: string, x: string, y: string)
    requires id != ""
    ensures var s := Handle(cfg, SENT, ArgumentsDelta(None, Some(id), None, Some(x))).0;
            && s.sentRole && !s.returned
            && Handle(cfg, SENT, ArgumentsDelta(None, Some(id), None, Some(x))).1 ==
               [ToolCallChunk(0, Some(Announcement(Some(id), None)), Some(x))]
            && Handle(cfg, s, ArgumentsDelta(None, Some(id), Some(name), Some(y))).1 ==
               [ToolCallChunk(0, None, Some(y))]
  {
    var s := Handle(cfg, SENT, ArgumentsDelta(None, Some(id), None, Some(x))).0;
    assert s.callIndexes == map[id := 0] && s.announced == {Some(id)};
  }

  lemma NameComesLate(e0: Event, e1: Event, id: string, name: string)
    requires id != "" && name != ""
    requires e0.ArgumentsDelta? && e0.itemId == None && e0.callId == Some(id) && e0.name == None
    requires e1.ArgumentsDelta? && e1.itemId == None && e1.callId == Some(id) && e1.name == Some(name)
    ensures var es := [e0, e1]; IdsGiven(es) && AddedFirst(es) && ItemsFirst(es) && !NamedFirst(es)
  {
    var es := [e0, e1];
    assert es[..1] == [e0];
    assert Subject([], e0) == Announcement(Some(id), None) && Subject([e0], e1).id == Some(id);
    OneHeard(e0, id);
    assert FirstName(es, id) == FirstName([e0], id);
    NotAddedUnknown(es, None);
    assert Said(es, 0) == Announcement(Some(id), None) && Said(es, 1) == Announcement(Some(id), Some(name));
    hide Said, Subject;
    assert SaidOf(es, 0, id) && SaidOf(es, 1, id) && NameOf(es, 0, id) == "";
    assert NameOf(es, 1, id) == "";
    assert NameOf(es, 2, id) == name;
    assert id in Mentions(es);
  }

  // ----- what a reserved id hides -----

  /** The call is added without an id, and then arguments come for a call whose id is the key made up for it. */
  function Masked(itemId: string, name: string, delta: string): seq<Event> {
    [ItemAdded(FunctionCallItem(itemId, None, None)),
     ArgumentsDelta(None, Some(Placeholder(0)), Some(name), Some(delta))]
  }

  /** A given id that is also the made-up key of a nameless call: the two merge, and nothing looks wrong. */
  lemma ReservedIdHidesMissingId(cfg: Config, itemId: string, name: string, delta: string)
    requires itemId != "" && name != ""
    ensures var es := Masked(itemId, name, delta); !IdsGiven(es) && Recovers(Fold(Output(cfg, es)), es)
  {
    var e0, e1 := ItemAdded(FunctionCallItem(itemId, None, None)), Masked(itemId, name, delta)[1];
    ItemRead(itemId, None, None);
    NoIdGiven(e0, e1);
    MaskedClient(cfg, Placeholder(0), itemId, name, delta);
    MaskedMeaning(e0, e1, Placeholder(0), name, delta);
    hide Placeholder, FunctionCallItem, IdsGiven, Fold, Output, Recovers, CallMeant, Calls, ContentText, RefusalText;
    OneCall(Fold(Output(cfg, [e0, e1])), [e0, e1], Placeholder(0));
  }

  lemma MaskedClient(cfg: Config, id: string, itemId: string, name: string, delta: string)
    requires id == Placeholder(0) && itemId != "" && name != ""
    ensures Fold(Output(cfg, Masked(itemId, name, delta))) == Client("", "", map[0 := ClientCall(id, name, delta)])
    ensures id != ""
  {
    var es, a, b := Masked(itemId, name, delta), Announcement(None, None), Announcement(Some(id), Some(name));
    MaskedHandled(cfg, itemId, name, delta);
    hide Handle, Fold, Output, FunctionCallItem, Placeholder;
    TwoChunks(cfg, es[0], es[1], ToolCallChunk(0, Some(a), Some("")), ToolCallChunk(0, Some(b), Some(delta)));
    SameCall(a, "", b, delta);
    EmptyAdds(id);
    EmptyAdds(name);
    EmptyAdds(delta);
    hide Receive;
  }

  lemma OneCall(cl: Client, es: seq<Event>, id: string)
    requires Calls(es, |es|) == [id] && ContentText(es) == "" && RefusalText(es) == ""
    requires cl == Client("", "", map[0 := CallMeant(es)(id)])
    ensures Recovers(cl, es)
  {
    hide Calls, CallMeant, ContentText, RefusalText;
  }

  lemma MaskedHandled(cfg: Config, itemId: string, name: string, delta: string)
    requires itemId != "" && name != ""
    ensures var es := Masked(itemId, name, delta);
            var s := Handle(cfg, SENT, es[0]).0;
            && s.sentRole && !s.returned && Placeholder(0) != ""
            && Handle(cfg, SENT, es[0]).1 == [ToolCallChunk(0, Some(Announcement(None, None)), Some(""))]
            && Handle(cfg, s, es[1]).1 ==
               [ToolCallChunk(0, Some(Announcement(Some(Placeholder(0)), Some(name))), Some(delta))]
  {
    assert Placeholder(0)[0] == 'u';
    AddHandled(cfg, SENT, itemId, None, None);
    hide Handle, FunctionCallItem;
    MaskedArguments(cfg, Handle(cfg, SENT, Masked(itemId, name, delta)[0]).0, itemId, name, delta);
  }

  lemma MaskedArguments(cfg: Config, s: State, itemId: string, name: string, delta: string)
    requires name != "" && Placeholder(0) != ""
    requires s == SENT.(functionItems := map[itemId := Announcement(None, None)],
                        callIndexes := map[Placeholder(0) := 0], announced := {None})
    ensures Handle(cfg, s, ArgumentsDelta(None, Some(Placeholder(0)), Some(name), Some(delta))).1 ==
            [ToolCallChunk(0, Some(Announcement(Some(Placeholder(0)), Some(name))), Some(delta))]
  {
    hide Placeholder, Decimal;
  }

  lemma MaskedMeaning(e0: Event, e1: Event, id: string, name: string, delta: string)
    requires AddsCall(e0) && AnnouncementOf(e0.item) == Announcement(None, None) && id != "" && name != ""
    requires e1 == ArgumentsDelta(None, Some(id), Some(name), Some(delta))
    ensures var es := [e0, e1];
            && Calls(es, 2) == [id] && CallMeant(es)(id) == ClientCall(id, name, delta)
            && ContentText(es) == "" && RefusalText(es) == ""
  {
    var es := [e0, e1];
    assert es[..1] == [e0] && [e0][..0] == [];
    assert Said(es, 0) == Announcement(None, None) && Said(es, 1) == Announcement(Some(id), Some(name));
    assert Calls(es, 1) == [] && NameOf(es, 1, id) == "" && ArgumentsOf(es, 1, id) == "";
    assert NameOf(es, 2, id) == name;
    assert "" + delta == delta && "" + "" == "" && [] + [id] == [id];
    assert ContentText([e0]) == "" && RefusalText([e0]) == "";
  }

  // ----- what a shared id hides -----

  /** A call whose id is also the id of an item that comes late, and a delta of that item that carries no text. */
  function Shared(shared: string, id: string, first: string, second: string, delta: string): seq<Event> {
    [ArgumentsDelta(None, Some(shared), Some(first), Some(delta)),
     ArgumentsDelta(Some(shared), None, None, Some("")),
     ItemAdded(FunctionCallItem(shared, Some(id), Some(second)))]
  }

  /** The item comes late, but nothing is lost with it: why the converse keeps item ids and call ids apart. */
  lemma SharedIdHidesLateItem(cfg: Config, shared: string, id: string, first: string, second: string, delta: string)
    requires shared != "" && id != "" && shared != id && first != "" && second != ""
    ensures var es := Shared(shared, id, first, second, delta);
            !ItemsFirst(es) && Recovers(Fold(Output(cfg, es)), es)
  {
    var es := Shared(shared, id, first, second, delta);
    ItemRead(shared, Some(id), Some(second));
    assert es[2] in es && es[..1] == [es[0]] && es[..0] == [];
    assert Added(es, es[1].itemId) && !Added(es[..1], es[1].itemId) && !ItemInTime(es, 1);
    SharedClient(cfg, shared, id, first, second, delta);
    SharedMeaning(es, Announcement(Some(id), Some(second)), shared, first, delta);
    hide Shared, FunctionCallItem, Fold, Output, Calls, ContentText, RefusalText, ItemsFirst, AddsCall, AddsItem, Added;
    TwoCallsRecovered(Fold(Output(cfg, es)), es, shared, id);
  }

  lemma TwoCallsRecovered(cl: Client, es: seq<Event>, a: string, b: string)
    requires Calls(es, |es|) == [a, b] && ContentText(es) == "" && RefusalText(es) == ""
    requires cl == Client("", "", map[0 := CallMeant(es)(a), 1 := CallMeant(es)(b)])
    ensures Recovers(cl, es)
  {
    hide Calls, CallMeant, ContentText, RefusalText, Match;
    MatchTwo(a, b, CallMeant(es));
  }

  lemma MatchTwo(a: string, b: string, meant: string -> ClientCall)
    ensures Match(map[0 := meant(a), 1 := meant(b)], [a, b], meant)
  {
    var calls := map[0 := meant(a), 1 := meant(b)];
    assert forall i: nat :: i in calls <==> i == 0 || i == 1;
  }

  lemma SharedClient(cfg: Config, shared: string, id: string, first: string, second: string, delta: string)
    requires shared != "" && id != "" && shared != id && first != ""
    ensures Fold(Output(cfg, Shared(shared, id, first, second, delta))) ==
            Client("", "", map[0 := ClientCall(shared, first, delta), 1 := ClientCall(id, second, "")])
  {
    var es := Shared(shared, id, first, second, delta);
    var a, b := Announcement(Some(shared), Some(first)), Announcement(Some(id), Some(second));
    SharedStates(cfg, shared, id, first, second, delta);
    hide Fold, Output, Reached, Handle, FunctionCallItem, Receive;
    SharedFolded(a, b, delta);
    assert es[..2] + [es[2]] == es;
  }

  lemma SharedStates(cfg: Config, shared: string, id: string, first: string, second: string, delta: string)
    requires shared != "" && id != "" && shared != id && first != ""
    ensures var es := Shared(shared, id, first, second, delta);
            var c0 := ToolCallChunk(0, Some(Announcement(Some(shared), Some(first))), Some(delta));
            var c2 := ToolCallChunk(1, Some(Announcement(Some(id), Some(second))), Some(""));
            Fold(Output(cfg, es[..2] + [es[2]])) ==
            Receive(Receive(Receive(Client("", "", map[]), c0), ToolCallChunk(0, None, Some(""))), c2)
  {
    var es := Shared(shared, id, first, second, delta);
    var a, b := Announcement(Some(shared), Some(first)), Announcement(Some(id), Some(second));
    SharedHandled(cfg, shared, first, delta);
    assert es[..2] == [es[0], es[1]];
    hide Handle, Fold, Output, Reached, Receive;
    TwoChunks(cfg, es[0], es[1], ToolCallChunk(0, Some(a), Some(delta)), ToolCallChunk(0, None, Some("")));
    ThirdEvent(cfg, es[..2], shared, id, b);
  }

  lemma ThirdEvent(cfg: Config, es: seq<Event>, shared: string, id: string, b: Announcement)
    requires var s := Reached(cfg, es); s.sentRole && !s.returned && s.callIndexes == map[shared := 0]
    requires id != "" && shared != id && shared != "" && b.id == Some(id) && b.name.Some?
    ensures Fold(Output(cfg, es + [ItemAdded(FunctionCallItem(shared, b.id, b.name))])) ==
            Receive(Fold(Output(cfg, es)), ToolCallChunk(1, Some(b), Some("")))
  {
    var s, e := Reached(cfg, es), ItemAdded(FunctionCallItem(shared, b.id, b.name));
    hide Handle, Fold, Output, Reached, FunctionCallItem, Receive, WithCall, AddsCall;
    AddHandled(cfg, s, shared, b.id, b.name);
    assert IndexOf(s.callIndexes, b.id) == 1;
    hide IndexOf;
    assert s.(sentRole := true) == s;
    EventChunk(cfg, es, e, Handle(cfg, s, e).0, ToolCallChunk(1, Some(b), Some("")));
  }

  lemma SharedHandled(cfg: Config, shared: string, first: string, delta: string)
    requires shared != "" && first != ""
    ensures var s0 := Handle(cfg, SENT, ArgumentsDelta(None, Some(shared), Some(first), Some(delta))).0;
            var s1 := Handle(cfg, s0, ArgumentsDelta(Some(shared), None, None, Some(""))).0;
            && Handle(cfg, SENT, ArgumentsDelta(None, Some(shared), Some(first), Some(delta))).1 ==
               [ToolCallChunk(0, Some(Announcement(Some(shared), Some(first))), Some(delta))]
            && Handle(cfg, s0, ArgumentsDelta(Some(shared), None, None, Some(""))).1 ==
               [ToolCallChunk(0, None, Some(""))]
            && s0.sentRole && !s0.returned && s1 == s0 && s0.callIndexes == map[shared := 0]
  {
  }

  lemma SharedFolded(a: Announcement, b: Announcement, delta: string)
    ensures var c0, c1 := ToolCallChunk(0, Some(a), Some(delta)), ToolCallChunk(0, None, Some(""));
            Receive(Receive(Receive(Client("", "", map[]), c0), c1), ToolCallChunk(1, Some(b), Some(""))) ==
            Client("", "", map[0 := ClientCall(Text(a.id), Text(a.name), delta),
                               1 := ClientCall(Text(b.id), Text(b.name), "")])
  {
    MoreArguments(a, delta, "");
    EmptyAdds(delta);
    EmptyAdds(Text(b.id));
    EmptyAdds(Text(b.name));
    EmptyAdds("");
  }

  predicate SharedEvents(es: seq<Event>, item: Announcement, shared: string, first: string, delta: string) {
    && |es| == 3 && shared != "" && first != "" && NonEmpty(item.id) && NonEmpty(item.name)
    && es[0] == ArgumentsDelta(None, Some(shared), Some(first), Some(delta))
    && es[1] == ArgumentsDelta(Some(shared), None, None, Some(""))
    && AddsItem(es[2], Some(shared)) && AnnouncementOf(es[2].item) == item
  }

  lemma SharedMeaning(es: seq<Event>, item: Announcement, shared: string, first: string, delta: string)
    requires SharedEvents(es, item, shared, first, delta) && item.id != Some(shared)
    ensures Calls(es, 3) == [shared, item.id.value] && ContentText(es) == "" && RefusalText(es) == ""
    ensures CallMeant(es)(shared) == ClientCall(shared, first, delta)
    ensures CallMeant(es)(item.id.value) == ClientCall(item.id.value, item.name.value, "")
  {
    SharedCalls(es, item, shared, first, delta);
    SharedNames(es, item, shared, first, delta);
    SharedArguments(es, item, shared, first, delta);
    hide ArgumentsOf, NameOf, Calls, ContentText, RefusalText;
    NoTexts(es);
  }

  lemma SharedCalls(es: seq<Event>, item: Announcement, shared: string, first: string, delta: string)
    requires SharedEvents(es, item, shared, first, delta) && item.id != Some(shared)
    ensures Calls(es, 3) == [shared, item.id.value]
  {
    SharedSaid(es, item, shared, first, delta);
    hide Said, AddsItem;
    assert Calls(es, 0) == [] && Calls(es, 1) == [shared] && Calls(es, 2) == [shared, item.id.value];
  }

  lemma SharedNames(es: seq<Event>, item: Announcement, shared: string, first: string, delta: string)
    requires SharedEvents(es, item, shared, first, delta) && item.id != Some(shared)
    ensures NameOf(es, 3, shared) == first && NameOf(es, 3, item.id.value) == item.name.value
  {
    var id := item.id.value;
    SharedSaid(es, item, shared, first, delta);
    hide Said, AddsItem;
    assert NameOf(es, 0, shared) == "" && NameOf(es, 1, shared) == first && NameOf(es, 2, shared) == first;
    assert NameOf(es, 0, id) == "" && NameOf(es, 1, id) == "" && NameOf(es, 2, id) == item.name.value;
  }

  lemma SharedArguments(es: seq<Event>, item: Announcement, shared: string, first: string, delta: string)
    requires SharedEvents(es, item, shared, first, delta) && item.id != Some(shared)
    ensures ArgumentsOf(es, 3, shared) == delta && ArgumentsOf(es, 3, item.id.value) == ""
  {
    var id := item.id.value;
    SharedSaid(es, item, shared, first, delta);
    EmptyAdds(delta);
    EmptyAdds("");
    hide Said, AddsItem, AddsCall;
    assert ArgumentsOf(es, 0, shared) == "" && ArgumentsOf(es, 0, id) == "";
    assert ArgumentsOf(es, 1, shared) == delta && ArgumentsOf(es, 1, id) == "";
    assert ArgumentsOf(es, 2, shared) == delta && ArgumentsOf(es, 2, id) == "";
  }

  lemma NoTexts(es: seq<Event>)
    requires |es| == 3 && forall i | 0 <= i < 3 :: !es[i].TextDelta? && !es[i].RefusalDelta?
    ensures ContentText(es) == "" && RefusalText(es) == ""
  {
    EmptyAdds("");
    hide ContentText, RefusalText, AddsCall;
    NoTextYet();
    TextsStep([], es[0]);
    TextsStep([es[0]], es[1]);
    TextsStep(es[..2], es[2]);
    assert [] + [es[0]] == [es[0]] && [es[0]] + [es[1]] == es[..2] && es[..2] + [es[2]] == es;
  }

  lemma NoTextYet()
    ensures ContentText([]) == "" && RefusalText([]) == ""
  {
  }

  lemma SharedSaid(es: seq<Event>, item: Announcement, shared: string, first: string, delta: string)
    requires SharedEvents(es, item, shared, first, delta)
    ensures Said(es, 0) == Announcement(Some(shared), Some(first)) && Said(es, 1) == item && Said(es, 2) == item
  {
    assert !Added(es[..1], Some(shared)) && es[2] in es;
    FirstIsAdded(es, Some(shared));
    var e :| e in es && AddsItem(e, Some(shared)) && AnnouncementOf(e.item) == FirstItem(es, Some(shared));
    assert e == es[2];
  }
}
