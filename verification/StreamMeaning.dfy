/** What a whole sequence of events says of its calls, whatever the order in which the mapper hears of it. */
module StreamMeaning {
  import opened Sequences
  import opened Wrappers
  import opened Values
  import opened StreamMapper
  import opened StreamReassembly

  // ----- items -----

  predicate AddsItem(e: Event, itemId: Option<string>) {
    AddsCall(e) && NonEmpty(itemId) && AsString(Attr(e.item, "id")) == itemId
  }

  /** A function call is added under `itemId`. */
  predicate Added(es: seq<Event>, itemId: Option<string>) {
    exists e :: e in es && AddsItem(e, itemId)
  }

  /** The first function call added under `itemId`. */
  function FirstItem(es: seq<Event>, itemId: Option<string>): Announcement {
    if es == [] then Announcement(None, None)
    else
      var before, e := es[..|es| - 1], es[|es| - 1];
      if !Added(before, itemId) && AddsItem(e, itemId) then AnnouncementOf(e.item) else FirstItem(before, itemId)
  }

  /** The item that the delta at `i` belongs to: the latest one under its item id, or else the next one to come. */
  function ItemFor(es: seq<Event>, i: nat): Announcement
    requires i < |es| && es[i].ArgumentsDelta?
  {
    if Added(es[..i], es[i].itemId) then LatestItem(es[..i], es[i].itemId) else FirstItem(es, es[i].itemId)
  }

  // ----- calls -----

  /** The id and name that the event at `i` gives its call. */
  function Said(es: seq<Event>, i: nat): Announcement
    requires i < |es| && SpeaksOfCall(es[i])
  {
    if AddsCall(es[i]) then AnnouncementOf(es[i].item)
    else
      var e, item := es[i], ItemFor(es, i);
      Announcement(OrElse(e.callId, OrElse(item.id, e.itemId)), OrElse(e.name, item.name))
  }

  predicate SaidOf(es: seq<Event>, i: nat, id: string)
    requires i < |es|
  {
    SpeaksOfCall(es[i]) && Said(es, i).id == Some(id)
  }

  /** The calls that the first `n` events speak of, in order of first mention. */
  function Calls(es: seq<Event>, n: nat): seq<string>
    requires n <= |es|
  {
    if n == 0 then []
    else
      var known := Calls(es, n - 1);
      if SpeaksOfCall(es[n - 1]) && NonEmpty(Said(es, n - 1).id) && Said(es, n - 1).id.value !in known then
        known + [Said(es, n - 1).id.value]
      else known
  }

  /** The first non-empty name that any of the first `n` events gives the call. */
  function NameOf(es: seq<Event>, n: nat, id: string): string
    requires n <= |es|
  {
    if n == 0 then ""
    else
      var earlier := NameOf(es, n - 1, id);
      if earlier == "" && SaidOf(es, n - 1, id) then Text(Said(es, n - 1).name) else earlier
  }

  /** All argument deltas that the first `n` events give the call, in order. */
  function ArgumentsOf(es: seq<Event>, n: nat, id: string): string
    requires n <= |es|
  {
    if n == 0 then ""
    else
      var e := es[n - 1];
      ArgumentsOf(es, n - 1, id) + if e.ArgumentsDelta? && SaidOf(es, n - 1, id) then Text(e.delta) else ""
  }

  function CallMeant(es: seq<Event>): string -> ClientCall {
    id => ClientCall(id, NameOf(es, |es|, id), ArgumentsOf(es, |es|, id))
  }

  /** The client holds exactly the calls meant, in order of first mention, and the two texts. */
  ghost predicate Recovers(cl: Client, es: seq<Event>) {
    && cl.content == ContentText(es)
    && cl.refusal == RefusalText(es)
    && Match(cl.calls, Calls(es, |es|), CallMeant(es))
  }

  // ----- orders in which nothing is lost -----

  /** If the event at `i` has to name its call by an item id, the item comes before it or never. */
  predicate ItemInTime(es: seq<Event>, i: nat)
    requires i < |es|
  {
    es[i].ArgumentsDelta? && !NonEmpty(es[i].callId) && Added(es, es[i].itemId) ==> Added(es[..i], es[i].itemId)
  }

  /** No item is added after a delta that had to name its call by the item's id. */
  predicate ItemsFirst(es: seq<Event>) {
    forall i | 0 <= i < |es| :: ItemInTime(es, i)
  }

  /** Each call that is ever given a name has one from its first mention. */
  predicate NamedFirst(es: seq<Event>) {
    forall id | id in Mentions(es) :: FirstName(es, id) == "" ==> NameOf(es, |es|, id) == ""
  }

  /** `e` itself gives the call id. */
  predicate Gives(e: Event, id: Option<string>) {
    (AddsCall(e) && AnnouncementOf(e.item).id == id) || (e.ArgumentsDelta? && e.callId == id)
  }

  /** No item that is added has an id that is also given as a call id. */
  predicate ItemIdsApart(es: seq<Event>) {
    forall e, g | e in es && g in es && AddsCall(e) && NonEmpty(AsString(Attr(e.item, "id"))) ::
      !Gives(g, AsString(Attr(e.item, "id")))
  }

  // ----- hearing and meaning -----

  lemma {:induction false} NotAddedUnknown(es: seq<Event>, itemId: Option<string>)
    requires !Added(es, itemId)
    ensures LatestItem(es, itemId) == FirstItem(es, itemId) == Announcement(None, None)
  {
    if es != [] {
      var before, e := es[..|es| - 1], es[|es| - 1];
      assert es == before + [e];
      assert e in es;
      NotAddedUnknown(before, itemId);
    }
  }

  lemma {:induction false} LatestIsAdded(es: seq<Event>, itemId: Option<string>)
    requires Added(es, itemId)
    ensures exists e :: e in es && AddsItem(e, itemId) && AnnouncementOf(e.item) == LatestItem(es, itemId)
  {
    var before, e := es[..|es| - 1], es[|es| - 1];
    assert es == before + [e];
    if !AddsItem(e, itemId) {
      LatestIsAdded(before, itemId);
    }
  }

  lemma {:induction false} FirstIsAdded(es: seq<Event>, itemId: Option<string>)
    requires Added(es, itemId)
    ensures exists e :: e in es && AddsItem(e, itemId) && AnnouncementOf(e.item) == FirstItem(es, itemId)
  {
    var before, e := es[..|es| - 1], es[|es| - 1];
    assert es == before + [e];
    if Added(before, itemId) {
      FirstIsAdded(before, itemId);
    }
  }

  /** The item of a delta is one that is added under its item id, if there is one. */
  lemma ItemForIsAdded(es: seq<Event>, i: nat)
    requires i < |es| && es[i].ArgumentsDelta?
    ensures var item := ItemFor(es, i);
            if Added(es, es[i].itemId) then
              exists e :: e in es && AddsItem(e, es[i].itemId) && AnnouncementOf(e.item) == item
            else item == Announcement(None, None)
  {
    if Added(es[..i], es[i].itemId) {
      LatestIsAdded(es[..i], es[i].itemId);
    } else if Added(es, es[i].itemId) {
      FirstIsAdded(es, es[i].itemId);
    } else {
      NotAddedUnknown(es, es[i].itemId);
    }
  }

  /** Where the item does not come late, the id heard is the id meant; and what is heard of a name is meant. */
  lemma HeardAsMeant(es: seq<Event>, i: nat)
    requires i < |es| && SpeaksOfCall(es[i])
    ensures var heard, said := Subject(es[..i], es[i]), Said(es, i);
            && (ItemInTime(es, i) ==> heard.id == said.id)
            && (NonEmpty(heard.name) ==> said.name == heard.name)
  {
    if es[i].ArgumentsDelta? && !Added(es[..i], es[i].itemId) {
      NotAddedUnknown(es[..i], es[i].itemId);
      if !Added(es, es[i].itemId) {
        NotAddedUnknown(es, es[i].itemId);
      }
    }
  }

  // ----- every call meant is heard -----

  lemma {:induction false} MentionsGrow(es: seq<Event>, n: nat, id: string)
    requires n <= |es| && id in Mentions(es[..n])
    ensures id in Mentions(es)
  {
    if n == |es| {
      assert es[..n] == es;
    } else {
      assert es[..|es| - 1][..n] == es[..n];
      MentionsGrow(es[..|es| - 1], n, id);
    }
  }

  lemma HeardAt(es: seq<Event>, i: nat)
    requires i < |es| && SpeaksOfCall(es[i]) && NonEmpty(Subject(es[..i], es[i]).id)
    ensures Subject(es[..i], es[i]).id.value in Mentions(es)
  {
    hide Mentions, Subject, SpeaksOfCall;
    var id := Subject(es[..i], es[i]).id.value;
    assert es[..i + 1] == es[..i] + [es[i]];
    MentionsStep(es[..i], es[i], id);
    MentionsGrow(es, i + 1, id);
  }

  lemma MeantIsHeard(es: seq<Event>, i: nat)
    requires i < |es| && SpeaksOfCall(es[i]) && NonEmpty(Said(es, i).id)
    ensures Said(es, i).id.value in Mentions(es)
  {
    HeardAsMeant(es, i);
    if ItemInTime(es, i) {
      HeardAt(es, i);
    } else {
      ItemForIsAdded(es, i);
      var e :| e in es && AddsItem(e, es[i].itemId) && AnnouncementOf(e.item) == ItemFor(es, i);
      if NonEmpty(AnnouncementOf(e.item).id) {
        var k :| 0 <= k < |es| && es[k] == e;
        HeardAt(es, k);
      } else {
        NotAddedUnknown(es[..i], es[i].itemId);
        HeardAt(es, i);
      }
    }
  }

  lemma {:induction false} CallsAreHeard(es: seq<Event>, n: nat)
    requires n <= |es|
    ensures forall id | id in Calls(es, n) :: id in Mentions(es)
    ensures Unique(Calls(es, n))
  {
    if n > 0 {
      CallsAreHeard(es, n - 1);
      if SpeaksOfCall(es[n - 1]) && NonEmpty(Said(es, n - 1).id) {
        MeantIsHeard(es, n - 1);
      }
    }
  }

  lemma {:induction false} MentionsUnique(es: seq<Event>)
    ensures Unique(Mentions(es))
  {
    if es != [] {
      MentionsUnique(es[..|es| - 1]);
    }
  }

  // ----- an item that comes late is heard under its own id -----

  lemma {:induction false} IdGivenAt(es: seq<Event>, i: nat)
    requires IdsGiven(es) && i < |es| && SpeaksOfCall(es[i])
    ensures NonEmpty(Subject(es[..i], es[i]).id)
  {
    if i == |es| - 1 {
      assert es[..i] == es[..|es| - 1];
    } else {
      assert es[..|es| - 1][..i] == es[..i];
      IdGivenAt(es[..|es| - 1], i);
    }
  }

  /** An added item's own id is never the id of a call. */
  lemma ItemIdNotMeant(es: seq<Event>, itemId: Option<string>, i: nat)
    requires IdsGiven(es) && ItemIdsApart(es) && Added(es, itemId) && i < |es| && SpeaksOfCall(es[i])
    ensures Said(es, i).id != itemId
  {
    var a :| a in es && AddsItem(a, itemId);
    var e := es[i];
    assert e in es && !Gives(e, itemId);
    if e.ArgumentsDelta? && Added(es, e.itemId) {
      ItemForIsAdded(es, i);
      var b :| b in es && AddsItem(b, e.itemId) && AnnouncementOf(b.item) == ItemFor(es, i);
      var k :| 0 <= k < |es| && es[k] == b;
      IdGivenAt(es, k);
      assert !Gives(b, itemId);
    } else if e.ArgumentsDelta? {
      ItemForIsAdded(es, i);
    }
  }

  lemma {:induction false} ItemIdNotCalled(es: seq<Event>, itemId: Option<string>, n: nat)
    requires IdsGiven(es) && ItemIdsApart(es) && Added(es, itemId) && n <= |es|
    ensures itemId.value !in Calls(es, n)
  {
    if n > 0 {
      ItemIdNotCalled(es, itemId, n - 1);
      if SpeaksOfCall(es[n - 1]) { ItemIdNotMeant(es, itemId, n - 1); }
    }
  }

  /** So a late item makes the mapper hear of a call that was never meant. */
  lemma LateItemHeard(es: seq<Event>)
    requires IdsGiven(es) && ItemIdsApart(es) && !ItemsFirst(es)
    ensures |Calls(es, |es|)| < |Mentions(es)|
  {
    var i :| 0 <= i < |es| && !ItemInTime(es, i);
    var itemId := es[i].itemId;
    NotAddedUnknown(es[..i], itemId);
    HeardAt(es, i);
    ItemIdNotCalled(es, itemId, |es|);
    CallsAreHeard(es, |es|);
    MentionsUnique(es);
    hide Calls, Mentions, IdsGiven, ItemIdsApart, ItemsFirst, ItemInTime, Added;
    UniqueSmaller(Calls(es, |es|), Mentions(es), itemId.value);
  }

  lemma FewerMeant(es: seq<Event>)
    ensures |Calls(es, |es|)| <= |Mentions(es)|
  {
    CallsAreHeard(es, |es|);
    MentionsUnique(es);
    UniqueNoLarger(Calls(es, |es|), Mentions(es));
  }

  // ----- where no item comes late, hearing is meaning -----

  lemma {:induction false} CallsAsHeard(es: seq<Event>, n: nat)
    requires ItemsFirst(es) && n <= |es|
    ensures Calls(es, n) == Mentions(es[..n])
  {
    if n > 0 {
      CallsAsHeard(es, n - 1);
      assert es[..n][..n - 1] == es[..n - 1] && ItemInTime(es, n - 1);
      if SpeaksOfCall(es[n - 1]) { HeardAsMeant(es, n - 1); }
    }
  }

  lemma {:induction false} ArgumentsAsHeard(es: seq<Event>, n: nat, id: string)
    requires ItemsFirst(es) && n <= |es|
    ensures ArgumentsOf(es, n, id) == Arguments(es[..n], id)
  {
    if n > 0 {
      ArgumentsAsHeard(es, n - 1, id);
      assert es[..n][..n - 1] == es[..n - 1] && ItemInTime(es, n - 1);
      if SpeaksOfCall(es[n - 1]) { HeardAsMeant(es, n - 1); }
    }
  }

  /** The name heard at the first mention is the name meant, unless it is empty. */
  lemma {:induction false} NameAsHeard(es: seq<Event>, n: nat, id: string)
    requires ItemsFirst(es) && n <= |es| && id != ""
    ensures id !in Mentions(es[..n]) ==> NameOf(es, n, id) == ""
    ensures FirstName(es[..n], id) != "" ==> NameOf(es, n, id) == FirstName(es[..n], id)
  {
    if n > 0 {
      NameAsHeard(es, n - 1, id);
      var before, e := es[..n - 1], es[n - 1];
      assert es[..n][..n - 1] == before && ItemInTime(es, n - 1);
      if id !in Mentions(before) { SilentBeforeMention(before, id); }
      if SpeaksOfCall(e) { HeardAsMeant(es, n - 1); }
    }
  }

  /** The one other way to say so: each call meant is added at most once, before anything else is said of it. */
  predicate EachAddedFirst(es: seq<Event>) {
    forall i | 0 <= i < |es| && AddsCall(es[i]) :: Text(Said(es, i).id) !in Calls(es, i)
  }

  lemma {:induction false} AddedFirstAt(es: seq<Event>, i: nat)
    requires AddedFirst(es) && i < |es| && AddsCall(es[i])
    ensures Text(Subject(es[..i], es[i]).id) !in Mentions(es[..i])
  {
    if i == |es| - 1 {
      assert es[..i] == es[..|es| - 1];
    } else {
      assert es[..|es| - 1][..i] == es[..i];
      AddedFirstAt(es[..|es| - 1], i);
    }
  }

  lemma {:induction false} CallsGrow(es: seq<Event>, m: nat, n: nat)
    requires m <= n <= |es|
    ensures forall id | id in Calls(es, m) :: id in Calls(es, n)
  {
    if m < n {
      CallsGrow(es, m, n - 1);
    }
  }

  lemma AddedBefore(es: seq<Event>, i: nat, k: nat, itemId: Option<string>)
    requires k < i <= |es| && AddsItem(es[k], itemId)
    ensures Added(es[..i], itemId)
  {
    assert es[..i][k] == es[k];
  }

  lemma AddedNotBefore(es: seq<Event>, i: nat, k: nat, itemId: Option<string>)
    requires i <= |es| && k < |es| && AddsItem(es[k], itemId) && !Added(es[..i], itemId)
    ensures i <= k
  {
    hide Added, AddsItem;
    if k < i {
      AddedBefore(es, i, k, itemId);
    }
  }

  /** An item that comes late is added after its call was spoken of. */
  lemma LateItemRepeats(es: seq<Event>, i: nat) returns (k: nat)
    requires IdsGiven(es) && i < |es| && !ItemInTime(es, i)
    ensures k < |es| && AddsCall(es[k]) && Text(Said(es, k).id) in Calls(es, k)
  {
    var itemId := es[i].itemId;
    FirstIsAdded(es, itemId);
    var e :| e in es && AddsItem(e, itemId) && AnnouncementOf(e.item) == FirstItem(es, itemId);
    k :| 0 <= k < |es| && es[k] == e;
    IdGivenAt(es, k);
    AddedNotBefore(es, i, k, itemId);
    assert Said(es, i).id == Said(es, k).id;
    hide Added, AddsItem, FirstItem, IdsGiven, ItemInTime, Said, Subject;
    CallAt(es, i);
    CallsGrow(es, i + 1, k);
  }

  lemma CallAt(es: seq<Event>, i: nat)
    requires i < |es| && SpeaksOfCall(es[i]) && NonEmpty(Said(es, i).id)
    ensures Said(es, i).id.value in Calls(es, i + 1)
  {
  }

  lemma {:induction false} AddedAsMeant(es: seq<Event>, n: nat)
    requires ItemsFirst(es) && EachAddedFirst(es) && n <= |es|
    ensures AddedFirst(es[..n])
  {
    if n > 0 {
      AddedAsMeant(es, n - 1);
      assert es[..n][..n - 1] == es[..n - 1];
      CallsAsHeard(es, n - 1);
    }
  }

  /** With ids given, the two order conditions together say just that. */
  lemma EachAddedFirstSplits(es: seq<Event>)
    requires IdsGiven(es)
    ensures EachAddedFirst(es) <==> AddedFirst(es) && ItemsFirst(es)
  {
    assert es[..|es|] == es;
    if EachAddedFirst(es) {
      if i :| 0 <= i < |es| && !ItemInTime(es, i) {
        var k := LateItemRepeats(es, i);
      }
      AddedAsMeant(es, |es|);
    } else if AddedFirst(es) && ItemsFirst(es) {
      forall i | 0 <= i < |es| && AddsCall(es[i]) ensures Text(Said(es, i).id) !in Calls(es, i) {
        AddedFirstAt(es, i);
        CallsAsHeard(es, i);
      }
    }
  }
}
