/**
 A client that folds the chunks gets back what the mapper could hear: each event read by the events before it.
 Hearing is defined on the event sequence alone, without the mapper's tables.
 */
module StreamReassembly {
  import opened Wrappers
  import opened Values
  import opened StreamMapper
  import opened StreamGrammar

  // ----- what is heard -----

  /** The latest function call added under `itemId` so far. */
  function LatestItem(es: seq<Event>, itemId: Option<string>): Announcement {
    if es == [] || !NonEmpty(itemId) then Announcement(None, None)
    else
      var e := es[|es| - 1];
      if AddsCall(e) && AsString(Attr(e.item, "id")) == itemId then AnnouncementOf(e.item)
      else LatestItem(es[..|es| - 1], itemId)
  }

  predicate SpeaksOfCall(e: Event) {
    AddsCall(e) || e.ArgumentsDelta?
  }

  /** The id and name that `e` gives the call it speaks of, so far as the events `es` before it tell. */
  function Subject(es: seq<Event>, e: Event): Announcement
    requires SpeaksOfCall(e)
  {
    if AddsCall(e) then AnnouncementOf(e.item)
    else
      var latest := LatestItem(es, e.itemId);
      Announcement(OrElse(e.callId, OrElse(latest.id, e.itemId)), OrElse(e.name, latest.name))
  }

  /** The call ids in the order in which they are first spoken of. */
  function Mentions(es: seq<Event>): seq<string> {
    if es == [] then []
    else
      var before, e := es[..|es| - 1], es[|es| - 1];
      var known := Mentions(before);
      if SpeaksOfCall(e) && NonEmpty(Subject(before, e).id) && Subject(before, e).id.value !in known then
        known + [Subject(before, e).id.value]
      else known
  }

  predicate AboutCall(es: seq<Event>, e: Event, id: string) {
    SpeaksOfCall(e) && Subject(es, e).id == Some(id)
  }

  function Text(s: Option<string>): string {
    if s.Some? then s.value else ""
  }

  /** The name heard when `id` is first spoken of. */
  function FirstName(es: seq<Event>, id: string): string {
    if es == [] then ""
    else
      var before, e := es[..|es| - 1], es[|es| - 1];
      if id !in Mentions(before) && AboutCall(before, e, id) then Text(Subject(before, e).name)
      else FirstName(before, id)
  }

  /** All argument deltas of `id`, in order. */
  function Arguments(es: seq<Event>, id: string): string {
    if es == [] then ""
    else
      var before, e := es[..|es| - 1], es[|es| - 1];
      Arguments(before, id) + if e.ArgumentsDelta? && AboutCall(before, e, id) then Text(e.delta) else ""
  }

  function ContentText(es: seq<Event>): string {
    if es == [] then ""
    else
      var e := es[|es| - 1];
      ContentText(es[..|es| - 1]) + if e.TextDelta? then Text(e.delta) else ""
  }

  function RefusalText(es: seq<Event>): string {
    if es == [] then ""
    else
      var e := es[|es| - 1];
      RefusalText(es[..|es| - 1]) + if e.RefusalDelta? then Text(e.delta) else ""
  }

  // ----- the client -----

  datatype ClientCall = ClientCall(id: string, name: string, arguments: string)
  datatype Client = Client(content: string, refusal: string, calls: map<nat, ClientCall>)

  /** Chunks are merged the way the SDKs do: by index, concatenating every string field that is present. */
  function Receive(cl: Client, c: Chunk): Client {
    match c
    case ContentChunk(text) => cl.(content := cl.content + text)
    case RefusalChunk(text) => cl.(refusal := cl.refusal + text)
    case ToolCallChunk(i, _, _) => cl.(calls := cl.calls[i := Merged(cl.calls, c)])
    case _ => cl
  }

  function Merged(calls: map<nat, ClientCall>, c: Chunk): ClientCall
    requires c.ToolCallChunk?
  {
    var call := if c.index in calls then calls[c.index] else ClientCall("", "", "");
    var a := if c.announcement.Some? then c.announcement.value else Announcement(None, None);
    ClientCall(call.id + Text(a.id), call.name + Text(a.name), call.arguments + Text(c.arguments))
  }

  function Fold(out: seq<Chunk>): Client {
    if out == [] then Client("", "", map[]) else Receive(Fold(out[..|out| - 1]), out[|out| - 1])
  }

  lemma FoldOne(out: seq<Chunk>, c: Chunk)
    ensures Fold(out + [c]) == Receive(Fold(out), c)
  {
    assert (out + [c])[..|out|] == out;
  }

  // ----- the mapper's tables follow the events -----

  /** Every event that speaks of a call gives it a non-empty id. */
  predicate IdsGiven(es: seq<Event>) {
    es == [] ||
    var before, e := es[..|es| - 1], es[|es| - 1];
    IdsGiven(before) && (SpeaksOfCall(e) ==> NonEmpty(Subject(before, e).id))
  }

  /** Moreover each call is added at most once, before anything else is said of it. */
  predicate AddedFirst(es: seq<Event>) {
    es == [] ||
    var before, e := es[..|es| - 1], es[|es| - 1];
    AddedFirst(before) && (AddsCall(e) ==> Text(Subject(before, e).id) !in Mentions(before))
  }

  ghost predicate ItemsFollow(s: State, es: seq<Event>) {
    forall itemId: Option<string> :: Known(s.functionItems, itemId) == LatestItem(es, itemId)
  }

  ghost predicate IndexesFollow(m: map<string, nat>, mentions: seq<string>) {
    && |m| == |mentions|
    && (forall i | 0 <= i < |mentions| :: mentions[i] in m && m[mentions[i]] == i)
    && (forall k | k in m :: k in mentions)
  }

  ghost predicate AnnouncedFollow(announced: set<Option<string>>, mentions: seq<string>) {
    forall id: Option<string> :: id in announced <==> id.Some? && id.value in mentions
  }

  ghost predicate Follows(s: State, es: seq<Event>) {
    && ItemsFollow(s, es)
    && IndexesFollow(s.callIndexes, Mentions(es))
    && AnnouncedFollow(s.announced, Mentions(es))
  }

  lemma MentionIndexed(m: map<string, nat>, mentions: seq<string>, id: string)
    requires IndexesFollow(m, mentions) && id != ""
    ensures var mentions' := if id in mentions then mentions else mentions + [id];
            IndexesFollow(WithCall(m, Some(id)), mentions') && IndexOf(m, Some(id)) < |mentions'|
            && mentions'[IndexOf(m, Some(id))] == id
  {
    if id in mentions {
      var i :| 0 <= i < |mentions| && mentions[i] == id;
      assert mentions[i] in m;
    } else {
      assert id !in m;
      var m' := WithCall(m, Some(id));
      assert m'.Keys == m.Keys + {id};
      assert |m'| == |m'.Keys| && |m| == |m.Keys|;
    }
  }

  lemma StepFollowsItems(cfg: Config, s: State, before: seq<Event>, e: Event)
    requires !s.returned && !Terminal(e) && ItemsFollow(s, before)
    ensures ItemsFollow(Step(cfg, s, e).0, before + [e])
    ensures e.ArgumentsDelta? ==> Known(s.functionItems, e.itemId) == LatestItem(before, e.itemId)
  {
    var s', es := Step(cfg, s, e).0, before + [e];
    assert es[..|es| - 1] == before;
    forall itemId: Option<string> ensures Known(s'.functionItems, itemId) == LatestItem(es, itemId) {
      assert Known(s.functionItems, itemId) == LatestItem(before, itemId);
    }
  }

  lemma StepTables(cfg: Config, s: State, before: seq<Event>, e: Event)
    requires !s.returned && !Terminal(e)
    requires e.ArgumentsDelta? ==> Known(s.functionItems, e.itemId) == LatestItem(before, e.itemId)
    ensures var s' := Step(cfg, s, e).0;
            if SpeaksOfCall(e) then
              && s'.callIndexes == WithCall(s.callIndexes, Subject(before, e).id)
              && s'.announced == s.announced + {Subject(before, e).id}
            else s'.callIndexes == s.callIndexes && s'.announced == s.announced
  {
    hide LatestItem;
  }

  lemma AnnouncedStep(announced: set<Option<string>>, mentions: seq<string>, id: string)
    requires AnnouncedFollow(announced, mentions)
    ensures AnnouncedFollow(announced + {Some(id)}, if id in mentions then mentions else mentions + [id])
  {
  }

  lemma StepFollows(cfg: Config, s: State, before: seq<Event>, e: Event)
    requires !s.returned && !Terminal(e) && Follows(s, before)
    requires SpeaksOfCall(e) ==> NonEmpty(Subject(before, e).id)
    ensures Follows(Step(cfg, s, e).0, before + [e])
  {
    StepFollowsItems(cfg, s, before, e);
    StepTables(cfg, s, before, e);
    hide LatestItem, ItemsFollow, Step, Handle, WithCall, Mentions, IndexesFollow, AnnouncedFollow, Subject, IndexOf;
    if SpeaksOfCall(e) {
      var id := Subject(before, e).id.value;
      MentionsStep(before, e, id);
      MentionIndexed(s.callIndexes, Mentions(before), id);
      AnnouncedStep(s.announced, Mentions(before), id);
    } else {
      CallsUnchanged(before, e);
    }
  }

  lemma {:induction false} TablesFollow(cfg: Config, es: seq<Event>)
    requires Live(es) == es && IdsGiven(es)
    ensures !Reached(cfg, es).returned && Follows(Reached(cfg, es), es)
  {
    OutputGrammar(cfg, es);
    if es != [] {
      var before, e := es[..|es| - 1], es[|es| - 1];
      assert before + [e] == es;
      assert e in es;
      LiveInit(es);
      TablesFollow(cfg, before);
      StepFollows(cfg, Reached(cfg, before), before, e);
    }
  }

  // ----- the theorem -----

  function CallSpoken(es: seq<Event>, id: string): ClientCall {
    ClientCall(id, FirstName(es, id), Arguments(es, id))
  }

  ghost predicate Match(calls: map<nat, ClientCall>, ids: seq<string>, spoken: string -> ClientCall) {
    && (forall i: nat :: i in calls <==> i < |ids|)
    && (forall i | 0 <= i < |ids| :: i in calls && calls[i] == spoken(ids[i]))
  }

  function Spoken(es: seq<Event>): string -> ClientCall {
    id => CallSpoken(es, id)
  }

  ghost predicate CallsMatch(calls: map<nat, ClientCall>, es: seq<Event>) {
    Match(calls, Mentions(es), Spoken(es))
  }

  lemma UpdateMatch(calls: map<nat, ClientCall>, ids: seq<string>, ids': seq<string>,
                    spoken: string -> ClientCall, spoken': string -> ClientCall, i: nat)
    requires Match(calls, ids, spoken)
    requires (ids' == ids && i < |ids|) || (|ids'| == |ids| + 1 && ids'[..|ids|] == ids && i == |ids|)
    requires forall j | 0 <= j < |ids| && j != i :: spoken'(ids[j]) == spoken(ids[j])
    ensures Match(calls[i := spoken'(ids'[i])], ids', spoken')
  {
    var calls' := calls[i := spoken'(ids'[i])];
    forall j | 0 <= j < |ids'| ensures j in calls' && calls'[j] == spoken'(ids'[j]) {
      if j != i {
        assert ids'[j] == ids[j];
      }
    }
  }

  /** The client holds exactly the calls heard of, in order of first mention, and the two texts. */
  ghost predicate AsHeard(cl: Client, es: seq<Event>) {
    && cl.content == ContentText(es)
    && cl.refusal == RefusalText(es)
    && CallsMatch(cl.calls, es)
  }

  lemma {:induction false} SilentBeforeMention(es: seq<Event>, id: string)
    requires id != "" && id !in Mentions(es)
    ensures Arguments(es, id) == "" && FirstName(es, id) == ""
  {
    if es != [] {
      SilentBeforeMention(es[..|es| - 1], id);
    }
  }

  /** What `e` adds to its own call, and that it adds nothing to any other. */
  lemma SpokenStep(before: seq<Event>, e: Event, id: string)
    ensures CallSpoken(before + [e], id) ==
            if !AboutCall(before, e, id) then CallSpoken(before, id)
            else
              ClientCall(id,
                         if id in Mentions(before) then FirstName(before, id) else Text(Subject(before, e).name),
                         Arguments(before, id) + if e.ArgumentsDelta? then Text(e.delta) else "")
  {
    assert (before + [e])[..|before + [e]| - 1] == before;
  }

  /** `c` is the chunk that the mapper emits for `e`, when its tables follow `before`. */
  predicate ChunkFor(before: seq<Event>, e: Event, m: map<string, nat>, c: Chunk) {
    && SpeaksOfCall(e) && NonEmpty(Subject(before, e).id)
    && c == ToolCallChunk(IndexOf(m, Subject(before, e).id),
                          if !AddsCall(e) && Subject(before, e).id.value in Mentions(before) then None
                          else Some(Subject(before, e)),
                          if AddsCall(e) then Some("") else e.delta)
  }

  lemma MentionsStep(before: seq<Event>, e: Event, id: string)
    requires SpeaksOfCall(e) && id != "" && Subject(before, e).id == Some(id)
    ensures Mentions(before + [e]) == if id in Mentions(before) then Mentions(before) else Mentions(before) + [id]
  {
    assert (before + [e])[..|before + [e]| - 1] == before;
  }

  lemma MergedIsSpoken(before: seq<Event>, e: Event, m: map<string, nat>, calls: map<nat, ClientCall>, c: Chunk)
    requires ChunkFor(before, e, m, c) && CallsMatch(calls, before)
    requires AddsCall(e) ==> Subject(before, e).id.value !in Mentions(before)
    requires var id, known := Subject(before, e).id.value, Mentions(before);
             if id in known then c.index < |known| && known[c.index] == id else c.index == |known|
    ensures Merged(calls, c) == CallSpoken(before + [e], Subject(before, e).id.value)
  {
    var id := Subject(before, e).id.value;
    SpokenStep(before, e, id);
    if id !in Mentions(before) {
      SilentBeforeMention(before, id);
    } else {
      assert calls[c.index] == Spoken(before)(id);
    }
  }

  /** The calls the client holds after that chunk. */
  lemma CallsRecovered(before: seq<Event>, e: Event, m: map<string, nat>, calls: map<nat, ClientCall>, c: Chunk)
    requires IndexesFollow(m, Mentions(before)) && CallsMatch(calls, before) && ChunkFor(before, e, m, c)
    requires AddsCall(e) ==> Subject(before, e).id.value !in Mentions(before)
    ensures CallsMatch(calls[c.index := Merged(calls, c)], before + [e])
  {
    var known, id := Mentions(before), Subject(before, e).id.value;
    MentionsStep(before, e, id);
    MentionIndexed(m, known, id);
    MergedIsSpoken(before, e, m, calls, c);
    forall j | 0 <= j < |known| && j != c.index ensures Spoken(before + [e])(known[j]) == Spoken(before)(known[j]) {
      assert m[known[j]] == j;
      SpokenStep(before, e, known[j]);
    }
    UpdateMatch(calls, known, Mentions(before + [e]), Spoken(before), Spoken(before + [e]), c.index);
  }

  lemma OneChunk(cfg: Config, s: State, e: Event)
    requires !Terminal(e)
    ensures |Handle(cfg, s, e).1| <= 1
  {
  }

  lemma RoleInvisible(cl: Client)
    ensures Receive(cl, RoleChunk) == cl
  {
  }

  lemma StepChunks(cfg: Config, s: State, out: seq<Chunk>, e: Event)
    requires !s.returned && !Terminal(e)
    ensures var body := Handle(cfg, s.(sentRole := true), e).1;
            && |body| <= 1
            && Fold(out + Step(cfg, s, e).1) == if body == [] then Fold(out) else Receive(Fold(out), body[0])
  {
    hide Handle, Step, Fold, Receive;
    OneChunk(cfg, s.(sentRole := true), e);
    StepIsHandle(cfg, s, e);
    FoldRole(out, s.sentRole, Handle(cfg, s.(sentRole := true), e).1);
  }

  /** The role chunk means nothing to a client. */
  lemma FoldRole(out: seq<Chunk>, sentRole: bool, body: seq<Chunk>)
    requires |body| <= 1
    ensures Fold(out + ((if sentRole then [] else [RoleChunk]) + body)) ==
            if body == [] then Fold(out) else Receive(Fold(out), body[0])
  {
    hide Fold, Receive;
    var begun := if sentRole then out else out + [RoleChunk];
    FoldOne(out, RoleChunk);
    RoleInvisible(Fold(out));
    assert out + ((if sentRole then [] else [RoleChunk]) + body) == begun + body;
    if body == [] {
      assert begun + body == begun;
    } else {
      FoldOne(begun, body[0]);
      assert body == [body[0]];
    }
  }

  lemma StepChunkFor(cfg: Config, s: State, before: seq<Event>, e: Event)
    requires Follows(s, before) && SpeaksOfCall(e) && NonEmpty(Subject(before, e).id)
    ensures var body := Handle(cfg, s.(sentRole := true), e).1;
            |body| == 1 && ChunkFor(before, e, s.callIndexes, body[0])
  {
    if e.ArgumentsDelta? {
      assert Known(s.functionItems, e.itemId) == LatestItem(before, e.itemId);
    }
  }

  lemma CallRecovers(cl: Client, before: seq<Event>, e: Event, m: map<string, nat>, c: Chunk)
    requires AsHeard(cl, before) && IndexesFollow(m, Mentions(before)) && ChunkFor(before, e, m, c)
    requires AddsCall(e) ==> Subject(before, e).id.value !in Mentions(before)
    ensures AsHeard(Receive(cl, c), before + [e])
  {
    TextsStep(before, e);
    CallsRecovered(before, e, m, cl.calls, c);
  }

  lemma TextRecovers(cfg: Config, s: State, cl: Client, before: seq<Event>, e: Event)
    requires !SpeaksOfCall(e) && !Terminal(e) && AsHeard(cl, before)
    ensures var body := Handle(cfg, s, e).1;
            AsHeard(if body == [] then cl else Receive(cl, body[0]), before + [e])
  {
    TextsStep(before, e);
    OthersKeepCalls(before, e, cl.calls);
    hide Mentions, CallSpoken, Match;
  }

  lemma StepRecovers(cfg: Config, s: State, before: seq<Event>, out: seq<Chunk>, e: Event)
    requires !s.returned && !Terminal(e) && Follows(s, before) && AsHeard(Fold(out), before)
    requires SpeaksOfCall(e) ==> NonEmpty(Subject(before, e).id)
    requires AddsCall(e) ==> Text(Subject(before, e).id) !in Mentions(before)
    ensures AsHeard(Fold(out + Step(cfg, s, e).1), before + [e])
  {
    hide Handle, Step, Mentions, AsHeard, LatestItem, Receive, Fold;
    StepChunks(cfg, s, out, e);
    if SpeaksOfCall(e) {
      StepChunkFor(cfg, s, before, e);
      CallRecovers(Fold(out), before, e, s.callIndexes, Handle(cfg, s.(sentRole := true), e).1[0]);
    } else {
      TextRecovers(cfg, s.(sentRole := true), Fold(out), before, e);
    }
  }

  lemma TextsStep(before: seq<Event>, e: Event)
    ensures ContentText(before + [e]) == ContentText(before) + if e.TextDelta? then Text(e.delta) else ""
    ensures RefusalText(before + [e]) == RefusalText(before) + if e.RefusalDelta? then Text(e.delta) else ""
  {
    assert (before + [e])[..|before + [e]| - 1] == before;
  }

  lemma OthersKeepCalls(before: seq<Event>, e: Event, calls: map<nat, ClientCall>)
    requires !SpeaksOfCall(e) && CallsMatch(calls, before)
    ensures CallsMatch(calls, before + [e])
  {
    assert (before + [e])[..|before + [e]| - 1] == before;
    forall i | 0 <= i < |Mentions(before)|
      ensures calls[i] == Spoken(before + [e])(Mentions(before)[i])
    {
      SpokenStep(before, e, Mentions(before)[i]);
    }
  }

  lemma {:induction false} LiveReassembly(cfg: Config, es: seq<Event>)
    requires Live(es) == es && IdsGiven(es) && AddedFirst(es)
    ensures AsHeard(Fold(Output(cfg, es)), es)
  {
    if es != [] {
      var before, e := es[..|es| - 1], es[|es| - 1];
      assert before + [e] == es;
      assert e in es;
      LiveInit(es);
      LiveReassembly(cfg, before);
      TablesFollow(cfg, before);
      StepRecovers(cfg, Reached(cfg, before), before, Output(cfg, before), e);
    }
  }

  lemma {:induction false} LiveOfLive(live: seq<Event>)
    requires forall e | e in live :: !Terminal(e)
    ensures Live(live) == live
  {
  }

  /** What a mapper emits is what it emits for the live events, and then nothing that a client merges. */
  lemma LiveThenClosing(cfg: Config, es: seq<Event>) returns (closing: seq<Chunk>)
    ensures Output(cfg, es) == Output(cfg, Live(es)) + closing && forall c | c in closing :: !Delta(c)
    ensures Live(Live(es)) == Live(es)
  {
    hide Run, Step, Handle, Delta;
    var live := Live(es);
    LiveOfLive(live);
    if |live| < |es| {
      var e := es[|live|];
      assert es[..|live| + 1] == live + [e];
      OutputGrammar(cfg, live);
      RunSnoc(cfg, live, e);
      closing := Step(cfg, Reached(cfg, live), e).1;
      ClosingChunks(cfg, Reached(cfg, live), e);
      AfterReturn(cfg, es, |live| + 1);
    } else {
      assert es == live;
      closing := [];
    }
  }

  lemma ClosingChunks(cfg: Config, s: State, e: Event)
    requires !s.returned && Terminal(e)
    ensures Step(cfg, s, e).0.returned && forall c | c in Step(cfg, s, e).1 :: !Delta(c)
  {
    hide Step, Handle, Terminal;
    StepIsHandle(cfg, s, e);
    HandleShape(cfg, s.(sentRole := true), e);
    ClosingHasNoDelta(Handle(cfg, s.(sentRole := true), e).1);
    hide Closing;
  }

  lemma ClosingHasNoDelta(tail: seq<Chunk>)
    requires Closing(tail)
    ensures forall c | c in tail :: !Delta(c)
  {
  }

  lemma {:induction false} InvisibleTail(out: seq<Chunk>, tail: seq<Chunk>)
    requires forall c | c in tail :: !Delta(c)
    ensures Fold(out + tail) == Fold(out)
  {
    if tail == [] {
      assert out + tail == out;
    } else {
      var n := |tail| - 1;
      assert tail[n] in tail;
      InvisibleTail(out, tail[..n]);
      assert out + tail == out + tail[..n] + [tail[n]];
      FoldOne(out + tail[..n], tail[n]);
    }
  }

  // ----- the first chunk of each index -----

  predicate Bears(out: seq<Chunk>, p: nat, index: nat) {
    p < |out| && out[p].ToolCallChunk? && out[p].index == index
  }

  ghost predicate BornBefore(out: seq<Chunk>, p: nat, index: nat) {
    exists q: nat :: q < p && Bears(out, q, index)
  }

  /** Every index of `ids` occurs, no other does, and its first chunk carries the id. */
  ghost predicate FirstChunksNameCalls(out: seq<Chunk>, ids: seq<string>) {
    && (forall i: nat | i < |ids| :: BornBefore(out, |out|, i))
    && (forall p: nat | p < |out| && out[p].ToolCallChunk? ::
          && out[p].index < |ids|
          && (BornBefore(out, p, out[p].index) ||
              (out[p].announcement.Some? && out[p].announcement.value.id == Some(ids[out[p].index]))))
  }

  lemma BornLater(out: seq<Chunk>, more: seq<Chunk>, p: nat, index: nat)
    requires p <= |out|
    ensures BornBefore(out, p, index) ==> BornBefore(out + more, p, index)
  {
    if BornBefore(out, p, index) {
      var q: nat :| q < p && Bears(out, q, index);
      assert Bears(out + more, q, index);
    }
  }

  lemma AppendNames(out: seq<Chunk>, c: Chunk, ids: seq<string>, ids': seq<string>)
    requires FirstChunksNameCalls(out, ids) && ids <= ids' && |ids'| <= |ids| + 1
    requires |ids'| > |ids| ==> c.ToolCallChunk? && c.index == |ids|
    requires c.ToolCallChunk? ==> c.index < |ids'|
    requires c.ToolCallChunk? && c.index == |ids| ==>
               c.announcement.Some? && c.announcement.value.id == Some(ids'[|ids|])
    ensures FirstChunksNameCalls(out + [c], ids')
  {
    var all := out + [c];
    forall i: nat | i < |ids'| ensures BornBefore(all, |all|, i) {
      if i < |ids| {
        assert BornBefore(out, |out|, i);
        BornLater(out, [c], |out|, i);
      } else {
        assert Bears(all, |out|, i);
      }
    }
    forall p: nat | p < |all| && all[p].ToolCallChunk?
      ensures all[p].index < |ids'|
      ensures BornBefore(all, p, all[p].index) ||
              (all[p].announcement.Some? && all[p].announcement.value.id == Some(ids'[all[p].index]))
    {
      if p < |out| {
        BornLater(out, [c], p, all[p].index);
      } else if c.index < |ids| {
        assert BornBefore(out, |out|, c.index);
        BornLater(out, [c], |out|, c.index);
      }
    }
  }

  lemma StepNames(cfg: Config, s: State, before: seq<Event>, out: seq<Chunk>, e: Event)
    requires !s.returned && !Terminal(e) && Follows(s, before) && FirstChunksNameCalls(out, Mentions(before))
    requires SpeaksOfCall(e) ==> NonEmpty(Subject(before, e).id)
    ensures FirstChunksNameCalls(out + Step(cfg, s, e).1, Mentions(before + [e]))
  {
    var body, ids := Handle(cfg, s.(sentRole := true), e).1, Mentions(before);
    var begun := if s.sentRole then out else out + [RoleChunk];
    assert out + Step(cfg, s, e).1 == begun + body;
    if SpeaksOfCall(e) {
      StepChunkFor(cfg, s, before, e);
    } else {
      CallsUnchanged(before, e);
      HandleShape(cfg, s.(sentRole := true), e);
      assert |body| <= 1 && (body != [] ==> !body[0].ToolCallChunk?);
    }
    hide Handle, Step, Mentions, LatestItem, FirstChunksNameCalls;
    if !s.sentRole { AppendNames(out, RoleChunk, ids, ids); }
    if SpeaksOfCall(e) {
      var id := Subject(before, e).id.value;
      MentionsStep(before, e, id);
      MentionIndexed(s.callIndexes, ids, id);
      AppendNames(begun, body[0], ids, Mentions(before + [e]));
      assert body == [body[0]];
    } else if body == [] {
      assert begun + body == begun;
    } else {
      AppendNames(begun, body[0], ids, ids);
      assert body == [body[0]];
    }
  }

  lemma CallsUnchanged(before: seq<Event>, e: Event)
    requires !SpeaksOfCall(e)
    ensures Mentions(before + [e]) == Mentions(before)
  {
    assert (before + [e])[..|before + [e]| - 1] == before;
  }

  lemma {:induction false} LiveNames(cfg: Config, es: seq<Event>)
    requires Live(es) == es && IdsGiven(es)
    ensures FirstChunksNameCalls(Output(cfg, es), Mentions(es))
  {
    if es != [] {
      var before, e := es[..|es| - 1], es[|es| - 1];
      assert before + [e] == es && e in es;
      LiveInit(es);
      LiveNames(cfg, before);
      TablesFollow(cfg, before);
      StepNames(cfg, Reached(cfg, before), before, Output(cfg, before), e);
      RunSnoc(cfg, before, e);
    }
  }

  lemma {:induction false} TailNames(out: seq<Chunk>, tail: seq<Chunk>, ids: seq<string>)
    requires FirstChunksNameCalls(out, ids) && forall c | c in tail :: !Delta(c)
    ensures FirstChunksNameCalls(out + tail, ids)
  {
    if tail == [] {
      assert out + tail == out;
    } else {
      var n := |tail| - 1;
      assert tail[n] in tail;
      TailNames(out, tail[..n], ids);
      assert out + tail == out + tail[..n] + [tail[n]];
      hide FirstChunksNameCalls;
      AppendNames(out + tail[..n], tail[n], ids, ids);
    }
  }

  /** With ids given, the first chunk of each index carries the id of its call, whether or not the stream has ended. */
  lemma {:induction false} FirstChunkNamesCall(cfg: Config, es: seq<Event>)
    requires IdsGiven(Live(es))
    ensures FirstChunksNameCalls(Output(cfg, es), Mentions(Live(es)))
  {
    var closing := LiveThenClosing(cfg, es);
    hide FirstChunksNameCalls, Mentions, Live, IdsGiven;
    LiveNames(cfg, Live(es));
    TailNames(Output(cfg, Live(es)), closing, Mentions(Live(es)));
  }
}
