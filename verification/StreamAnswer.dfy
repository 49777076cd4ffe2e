/** What a client folds from the deltas of a stream, against the non-stream answer for the same response. */
module StreamAnswer {
  import opened Sequences
  import opened Strings
  import opened Wrappers
  import opened Values
  import opened Items
  import opened StreamMapper
  import opened StreamGrammar
  import opened StreamReassembly
  import opened StreamMeaning
  import opened StreamAgreement
  import ReassemblyExact
  import ResponseMapper

  function TextOf(v: Value): string {
    if v.Str? then v.s else ""
  }

  function AsClientCall(c: ToolCall): ClientCall {
    ClientCall(TextOf(c.id), TextOf(c.name), TextOf(c.arguments))
  }

  /** The client holds the tool calls of the answer, in its order, and its text but for outer white space. */
  ghost predicate SameAnswer(cl: Client, n: ResponseMapper.Normalized) {
    && (forall i: nat :: i in cl.calls <==> i < |n.toolCalls|)
    && (forall i: nat | i < |n.toolCalls| :: cl.calls[i] == AsClientCall(n.toolCalls[i]))
    && Strip(cl.content) == n.assistantText
  }

  function Ids(calls: seq<ToolCall>): seq<string> {
    seq(|calls|, i requires 0 <= i < |calls| => TextOf(calls[i].id))
  }

  /** The deltas of each call and of the text concatenate to what the items carry. */
  predicate DeltasTell(es: seq<Event>, items: seq<Value>) {
    var calls := FlatMap(ItemToolCalls, items);
    && Calls(es, |es|) == Ids(calls)
    && (forall i | 0 <= i < |calls| :: CallMeant(es)(TextOf(calls[i].id)) == AsClientCall(calls[i]))
    && Strip(ContentText(es)) == Strip(AllText(items))
  }

  /** A client that recovers what the events mean has the answer exactly when the events mean the answer. */
  lemma RecoveredAnswer(cl: Client, es: seq<Event>, n: ResponseMapper.Normalized, items: seq<Value>)
    requires Recovers(cl, es)
    requires n.toolCalls == FlatMap(ItemToolCalls, items) && n.assistantText == Strip(AllText(items))
    ensures SameAnswer(cl, n) <==> DeltasTell(es, items)
  {
    var calls, ids := n.toolCalls, Calls(es, |es|);
    hide Calls, CallMeant, FlatMap, ContentText, AllText, Strip;
    if SameAnswer(cl, n) {
      SameSize(cl.calls, |ids|, |calls|);
      forall i | 0 <= i < |ids| ensures ids[i] == TextOf(calls[i].id) {
        MeantId(es, ids[i]);
      }
      assert ids == Ids(calls);
    }
  }

  lemma SameSize(calls: map<nat, ClientCall>, m: nat, n: nat)
    requires (forall i: nat :: i in calls <==> i < m) && (forall i: nat :: i in calls <==> i < n)
    ensures m == n
  {
    assert m in calls <==> m < m;
    assert n in calls <==> n < n;
  }

  lemma MeantId(es: seq<Event>, id: string)
    ensures CallMeant(es)(id).id == id
  {
  }

  /**
   For a stream in good order that ends with the response whose output it announced as done: the client has the
   non-stream answer's tool calls, in order, and its text exactly when the deltas concatenate to the done items.
   */
  lemma {:induction false} FoldedAgreesWithNonStream(cfg: Config, es: seq<Event>, response: Value)
    requires Live(es) == es && DoneItems(es) == AttrList(response, "output")
    requires IdsGiven(es) && AddedFirst(es) && ItemsFirst(es) && NamedFirst(es)
    ensures var cl := Fold(Output(cfg, es + [Ended(response)]));
            SameAnswer(cl, ResponseMapper.NormalizedOf(response, cfg.bridges)) <==> DeltasTell(es, DoneItems(es))
  {
    var all, n := es + [Ended(response)], ResponseMapper.NormalizedOf(response, cfg.bridges);
    assert n.toolCalls == FlatMap(ItemToolCalls, DoneItems(es)) && n.assistantText == Strip(AllText(DoneItems(es)));
    LiveOfEnded(es, Ended(response));
    hide Live, DoneItems, Fold, Output, Recovers, SameAnswer, DeltasTell, FlatMap, AllText, ResponseMapper.NormalizedOf;
    hide IdsGiven, AddedFirst, ItemsFirst, NamedFirst;
    ReassemblyExact.Reassembly(cfg, all);
    RecoveredAnswer(Fold(Output(cfg, all)), es, n, DoneItems(es));
  }

  lemma LiveOfEnded(es: seq<Event>, e: Event)
    requires Live(es) == es && Terminal(e)
    ensures Live(es + [e]) == es
  {
    assert (es + [e])[..|es|] == es;
  }
}
